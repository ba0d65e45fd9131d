// frontend/src/utils/vulnTemplates.js: a constant table of vulnerability
// templates keyed by vulnerability type, a lookup that falls back to a
// default template, and the mapping from a severity to a display style.
//
// Both lookups index a JavaScript object literal. Such a lookup also finds
// the members every object inherits from Object.prototype, so the model
// writes the lookup out (`Property`) and keeps the code as written apart
// from the own-key lookup the rest of the model uses.
module VulnTemplates {

  datatype Template = Template(severity: string, description: string, suggestion: string, codeSnippet: string)

  // The eight entries of `VULN_TEMPLATES`.

  const SqlInjection: Template :=
    Template(
      "critical",
      "未对用户输入进行过滤，直接拼接到SQL查询中，可能导致数据库被攻击者控制",
      "使用参数化查询（Prepared Statements），永远不要将用户输入直接拼接到SQL语句中",
      "// 危险代码\nquery = \"SELECT * FROM users WHERE id = \" + userId\ndb.execute(query)\n\n// 安全代码\nquery = \"SELECT * FROM users WHERE id = ?\"\ndb.execute(query, [userId])")

  const CrossSiteScripting: Template :=
    Template(
      "high",
      "未对输出进行HTML转义，攻击者可注入恶意脚本窃取用户Cookie或执行钓鱼攻击",
      "使用模板引擎的自动转义功能，或对特殊字符进行HTML编码",
      "// 危险代码\nelement.innerHTML = userInput\n\n// 安全代码\nelement.textContent = userInput")

  const CommandInjection: Template :=
    Template(
      "critical",
      "直接使用用户输入执行系统命令，可能导致服务器被完全控制",
      "避免使用system/exec等函数，如必须使用需进行严格的输入验证和白名单过滤",
      "// 危险代码\nos.system(\"ping \" + hostname)\n\n// 安全代码\nimport subprocess\nsubprocess.run([\"ping\", \"-c\", \"4\", hostname], check=True)")

  const PathTraversal: Template :=
    Template(
      "high",
      "未对文件路径进行验证，攻击者可读取任意文件（如/etc/passwd）",
      "使用白名单验证文件名，移除所有路径分隔符和特殊字符",
      "// 危险代码\nfs.readFileSync(\"/var/www/uploads/\" + filename)\n\n// 安全代码\nconst path = require('path')\nconst safeName = path.basename(filename)\nfs.readFileSync(\"/var/www/uploads/\" + safeName)")

  const HardcodedKey: Template :=
    Template(
      "medium",
      "代码中硬编码了API密钥、密码或令牌，可能泄露敏感信息",
      "使用环境变量或密钥管理服务（KMS）存储敏感配置，代码中只保留配置读取逻辑",
      "// 危险代码\nconst API_KEY = \"sk-1234567890abcdef\"\n\n// 安全代码\nconst API_KEY = process.env.API_KEY")

  const UnsafeDeserialization: Template :=
    Template(
      "critical",
      "直接反序列化用户输入的数据，可能导致远程代码执行",
      "使用JSON等安全格式替代pickle，或实施严格的类型检查和签名验证",
      "// 危险代码\ndata = pickle.loads(userInput)\n\n// 安全代码\ndata = json.loads(userInput)")

  const InfoLeak: Template :=
    Template(
      "medium",
      "错误信息暴露了系统路径、数据库结构、堆栈跟踪等敏感信息",
      "自定义错误页面，生产环境关闭调试模式，统一返回模糊的错误信息",
      "// 危险代码\ncatch (Exception e) {\n  return e.getStackTrace().toString()\n}\n\n// 安全代码\ncatch (Exception e) {\n  logger.error(e)\n  return \"系统错误，请联系管理员\"\n}")

  const WeakCrypto: Template :=
    Template(
      "medium",
      "使用了MD5/SHA1等已破解的哈希算法，容易被彩虹表攻击",
      "使用bcrypt/Argon2等现代密码哈希算法，或AES-256等强加密算法",
      "// 危险代码\npassword_hash = md5(password)\n\n// 安全代码\npassword_hash = bcrypt.hashpw(password, bcrypt.gensalt())")

  /** `VULN_TEMPLATES`. */
  const Table: map<string, Template> := map[
    "SQL注入" := SqlInjection,
    "XSS跨站脚本" := CrossSiteScripting,
    "命令注入" := CommandInjection,
    "路径遍历" := PathTraversal,
    "硬编码密钥" := HardcodedKey,
    "不安全的反序列化" := UnsafeDeserialization,
    "敏感信息泄露" := InfoLeak,
    "弱加密算法" := WeakCrypto
  ]

  /** The object `getVulnTemplate` returns for a type missing from the table. */
  const DefaultTemplate: Template := Template("low", "未知类型的安全问题", "请人工审查代码", "// 暂无示例代码")

  /** The `map` inside `getSeverityType`. */
  const SeverityStyles: map<string, string> := map[
    "critical" := "danger",
    "high" := "danger",
    "medium" := "warning",
    "low" := "info"
  ]

  /** The severities the table uses. */
  predicate TableSeverity(s: string)
  {
    s == "critical" || s == "high" || s == "medium"
  }

  /** `getVulnTemplate(type)`: the table's entry for an own key, the default
      template for any other string. */
  function GetVulnTemplate(vulnType: string): (r: Template)
    ensures vulnType in Table ==> r == Table[vulnType]
    ensures vulnType !in Table ==> r == DefaultTemplate
    ensures r.severity == "low" <==> vulnType !in Table
  {
    TableSeverities();
    if vulnType in Table then Table[vulnType] else DefaultTemplate
  }

  /** `getSeverityType(severity)`: critical and high are shown as danger,
      medium as warning, and every other string (low, an upper-case
      spelling, an unknown word) as info. */
  function GetSeverityType(severity: string): (r: string)
    ensures r == "danger" || r == "warning" || r == "info"
    ensures r == "danger" <==> severity == "critical" || severity == "high"
    ensures r == "warning" <==> severity == "medium"
  {
    if severity in SeverityStyles then SeverityStyles[severity] else "info"
  }

  /** Every entry of the table is critical, high or medium, so a template
      with severity low only comes from the fallback. */
  lemma TableSeverities()
    ensures forall k :: k in Table ==> TableSeverity(Table[k].severity)
  {
    forall k | k in Table ensures TableSeverity(Table[k].severity) {
      assert k in Table.Keys;
    }
  }

  /** The display style of a looked-up template is info exactly when the
      type has no entry in the table. */
  lemma StyleIsInfoIffUnknown(vulnType: string)
    ensures GetSeverityType(GetVulnTemplate(vulnType).severity) == "info" <==> vulnType !in Table
  {
    TableSeverities();
  }

  /** Upper-case severities are not recognised. */
  lemma UpperCaseSeverityIsInfo()
    ensures GetSeverityType("HIGH") == "info" && GetSeverityType("CRITICAL") == "info"
  {
  }

  // ---------------------------------------------------------------------
  // The lookups as written: `obj[key] || fallback` on an object literal

  /** The members a JavaScript object literal inherits from Object.prototype;
      each of them is a function or, for `__proto__`, an object, so each is
      truthy. */
  const PrototypeMembers: set<string> := {
    "constructor", "hasOwnProperty", "isPrototypeOf", "propertyIsEnumerable",
    "toString", "toLocaleString", "valueOf", "__proto__",
    "__defineGetter__", "__defineSetter__", "__lookupGetter__", "__lookupSetter__"
  }

  /** What `obj[key]` finds: an own property, an inherited member, or
      undefined. */
  datatype Property<T> = Own(value: T) | Inherited(name: string) | Undefined

  function Lookup<T>(obj: map<string, T>, key: string): (r: Property<T>)
    ensures r.Own? <==> key in obj
    ensures r.Undefined? <==> key !in obj && key !in PrototypeMembers
  {
    if key in obj then Own(obj[key])
    else if key in PrototypeMembers then Inherited(key)
    else Undefined
  }

  /** `obj[key] || fallback`, for an object whose own values are all truthy
      (every value in both tables is a non-empty string or an object). */
  function OrElse<T>(p: Property<T>, fallback: T): (r: Property<T>)
    ensures r.Undefined? == false
    ensures p.Undefined? ==> r == Own(fallback)
    ensures !p.Undefined? ==> r == p
  {
    if p.Undefined? then Own(fallback) else p
  }

  /** `getVulnTemplate` as written. */
  function GetVulnTemplateAsWritten(vulnType: string): Property<Template>
  {
    OrElse(Lookup(Table, vulnType), DefaultTemplate)
  }

  /** `getSeverityType` as written. */
  function GetSeverityTypeAsWritten(severity: string): Property<string>
  {
    OrElse(Lookup(SeverityStyles, severity), "info")
  }

  /** Away from the inherited member names, the code as written and the
      own-key lookups agree. */
  lemma AsWrittenAgreesOffPrototype(key: string)
    requires key !in PrototypeMembers
    ensures GetVulnTemplateAsWritten(key) == Own(GetVulnTemplate(key))
    ensures GetSeverityTypeAsWritten(key) == Own(GetSeverityType(key))
  {
  }

  /** On an inherited member name the code as written returns that member:
      `getSeverityType('toString')` is the function Object.prototype.toString
      rather than a style, and `getVulnTemplate('constructor')` is the Object
      constructor rather than the default template. */
  lemma InheritedMembersLeak(key: string)
    requires key in PrototypeMembers
    ensures GetSeverityTypeAsWritten(key) == Inherited(key)
    ensures GetVulnTemplateAsWritten(key) == Inherited(key)
    ensures GetSeverityType(key) == "info" && GetVulnTemplate(key) == DefaultTemplate
  {
    NotAnOwnKey(key);
  }

  /** No inherited member name is a key of either table. */
  lemma NotAnOwnKey(key: string)
    requires key in PrototypeMembers
    ensures key !in Table && key !in SeverityStyles
  {
    NotAStyle(key);
    if key in Table {
      TableKeysAreNotAscii(key);
      PrototypeNamesAreAscii(key);
    }
  }

  lemma NotAStyle(key: string)
    requires key in PrototypeMembers
    ensures key !in SeverityStyles
  {
  }

  /** Every inherited member name ends with an ASCII character. */
  lemma PrototypeNamesAreAscii(key: string)
    requires key in PrototypeMembers
    ensures key != [] && key[|key| - 1] <= '\U{7f}'
  {
  }

  /** Every key of the template table ends with a CJK character. */
  lemma TableKeysAreNotAscii(key: string)
    requires key in Table
    ensures key != [] && key[|key| - 1] > '\U{7f}'
  {
    assert key in Table.Keys;
  }

  lemma ToStringIsNotAStyle()
    ensures GetSeverityTypeAsWritten("toString") == Inherited("toString")
    ensures GetSeverityType("toString") == "info"
  {
    InheritedMembersLeak("toString");
  }

  lemma ConstructorIsNotATemplate()
    ensures GetVulnTemplateAsWritten("constructor") == Inherited("constructor")
    ensures GetVulnTemplate("constructor") == DefaultTemplate
  {
    InheritedMembersLeak("constructor");
  }
}
