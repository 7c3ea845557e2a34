/** Configuration handling: `${NAME}` substitution over a parsed YAML
    document, the first-failure validator, and building the initial
    monitor state from a validated configuration. */
module ConfigManager {
  import opened Wrappers
  import opened State

  /** A parsed YAML value. Mappings keep their keys in document order, as
      Python dicts do. */
  datatype Value =
    | VMap(entries: seq<Entry>)
    | VList(items: seq<Value>)
    | VStr(s: string)
    | VInt(i: int)
    | VBool(b: bool)
    | VNull

  datatype Entry = Entry(key: string, value: Value)

  /** The errors loading a configuration raises. `TypeError` stands for
      Python's own error when `in` or `[]` meets a value of the wrong kind. */
  datatype ConfigError =
    | EnvVarNotFound(name: string)
    | MissingSection(section: string)
    | MissingField(section: string, field: string)
    | NotAnInteger(field: string)
    | RecipientsNotList
    | NoRecipients
    | TypeError

  /** The process environment. */
  type Env = map<string, string>

  // ---------------------------------------------------------------------
  // Environment substitution

  /** Starts with `${` and ends with `}`. */
  predicate IsPlaceholder(s: string) {
    |s| >= 2 && s[0] == '$' && s[1] == '{' && s[|s| - 1] == '}'
  }

  /** The text between `${` and `}`. */
  function PlaceholderName(s: string): string
    requires IsPlaceholder(s)
  {
    assert |s| != 2;
    s[2..|s| - 1]
  }

  /** Replace every placeholder string in the tree by its environment value;
      fail on the first placeholder (in document order) whose variable is
      not set. */
  function Substitute(v: Value, env: Env): (r: Result<Value, ConfigError>)
    ensures r.Err? ==> r.error.EnvVarNotFound? && r.error.name !in env
    ensures r.Ok? ==> (r.value.VMap? <==> v.VMap?) && (r.value.VList? <==> v.VList?)
    decreases v
  {
    match v
    case VMap(es) =>
      (match SubstituteEntries(es, env)
       case Ok(es') => Ok(VMap(es'))
       case Err(e) => Err(e))
    case VList(xs) =>
      (match SubstituteItems(xs, env)
       case Ok(xs') => Ok(VList(xs'))
       case Err(e) => Err(e))
    case VStr(s) =>
      if IsPlaceholder(s) then
        var name := PlaceholderName(s);
        if name in env then Ok(VStr(env[name])) else Err(EnvVarNotFound(name))
      else Ok(v)
    case _ => Ok(v)
  }

  function SubstituteEntries(es: seq<Entry>, env: Env): (r: Result<seq<Entry>, ConfigError>)
    ensures r.Err? ==> r.error.EnvVarNotFound? && r.error.name !in env
    ensures r.Ok? ==> |r.value| == |es| && forall k :: 0 <= k < |es| ==> r.value[k].key == es[k].key
    decreases es
  {
    if es == [] then Ok([])
    else
      match Substitute(es[0].value, env)
      case Err(e) => Err(e)
      case Ok(w) =>
        match SubstituteEntries(es[1..], env)
        case Err(e) => Err(e)
        case Ok(rest) => Ok([Entry(es[0].key, w)] + rest)
  }

  function SubstituteItems(xs: seq<Value>, env: Env): (r: Result<seq<Value>, ConfigError>)
    ensures r.Err? ==> r.error.EnvVarNotFound? && r.error.name !in env
    ensures r.Ok? ==> |r.value| == |xs|
    decreases xs
  {
    if xs == [] then Ok([])
    else
      match Substitute(xs[0], env)
      case Err(e) => Err(e)
      case Ok(w) =>
        match SubstituteItems(xs[1..], env)
        case Err(e) => Err(e)
        case Ok(rest) => Ok([w] + rest)
  }

  /** The variable names of the tree's placeholders, in document order. */
  function Placeholders(v: Value): seq<string>
    decreases v
  {
    match v
    case VMap(es) => EntriesPlaceholders(es)
    case VList(xs) => ItemsPlaceholders(xs)
    case VStr(s) => if IsPlaceholder(s) then [PlaceholderName(s)] else []
    case _ => []
  }

  function EntriesPlaceholders(es: seq<Entry>): seq<string>
    decreases es
  {
    if es == [] then [] else Placeholders(es[0].value) + EntriesPlaceholders(es[1..])
  }

  function ItemsPlaceholders(xs: seq<Value>): seq<string>
    decreases xs
  {
    if xs == [] then [] else Placeholders(xs[0]) + ItemsPlaceholders(xs[1..])
  }

  /** The first name in `names` that the environment does not define. */
  function FirstUnbound(names: seq<string>, env: Env): Option<string> {
    if names == [] then None
    else if names[0] !in env then Some(names[0])
    else FirstUnbound(names[1..], env)
  }

  lemma {:induction false} FirstUnboundAppend(a: seq<string>, b: seq<string>, env: Env)
    ensures FirstUnbound(a + b, env) == if FirstUnbound(a, env).Some? then FirstUnbound(a, env) else FirstUnbound(b, env)
  {
    if a != [] {
      assert (a + b)[0] == a[0];
      assert (a + b)[1..] == a[1..] + b;
      FirstUnboundAppend(a[1..], b, env);
    } else {
      assert a + b == b;
    }
  }

  /** Substitution fails exactly when some placeholder names an unset
      variable, and then it reports the first such variable. */
  lemma {:induction false} SubstituteFailure(v: Value, env: Env)
    ensures Substitute(v, env).Err? <==> FirstUnbound(Placeholders(v), env).Some?
    ensures Substitute(v, env).Err? ==>
              Substitute(v, env).error == EnvVarNotFound(FirstUnbound(Placeholders(v), env).value)
    decreases v
  {
    match v
    case VMap(es) => SubstituteEntriesFailure(es, env);
    case VList(xs) => SubstituteItemsFailure(xs, env);
    case VStr(s) =>
    case _ =>
  }

  lemma {:induction false} SubstituteEntriesFailure(es: seq<Entry>, env: Env)
    ensures SubstituteEntries(es, env).Err? <==> FirstUnbound(EntriesPlaceholders(es), env).Some?
    ensures SubstituteEntries(es, env).Err? ==>
              SubstituteEntries(es, env).error == EnvVarNotFound(FirstUnbound(EntriesPlaceholders(es), env).value)
    decreases es
  {
    if es != [] {
      SubstituteFailure(es[0].value, env);
      SubstituteEntriesFailure(es[1..], env);
      FirstUnboundAppend(Placeholders(es[0].value), EntriesPlaceholders(es[1..]), env);
    }
  }

  lemma {:induction false} SubstituteItemsFailure(xs: seq<Value>, env: Env)
    ensures SubstituteItems(xs, env).Err? <==> FirstUnbound(ItemsPlaceholders(xs), env).Some?
    ensures SubstituteItems(xs, env).Err? ==>
              SubstituteItems(xs, env).error == EnvVarNotFound(FirstUnbound(ItemsPlaceholders(xs), env).value)
    decreases xs
  {
    if xs != [] {
      SubstituteFailure(xs[0], env);
      SubstituteItemsFailure(xs[1..], env);
      FirstUnboundAppend(Placeholders(xs[0]), ItemsPlaceholders(xs[1..]), env);
    }
  }

  /** `w` is `v` with every placeholder replaced by its environment value:
      mappings with the same keys in the same order, lists of the same
      length, each `${NAME}` string (at any depth) replaced by the value of
      `NAME`, which is set, and every other scalar (and every
      non-placeholder string) unchanged. */
  predicate Replaced(v: Value, w: Value, env: Env)
    decreases v
  {
    match v
    case VMap(es) => w.VMap? && ReplacedEntries(es, w.entries, env)
    case VList(xs) => w.VList? && ReplacedItems(xs, w.items, env)
    case VStr(s) =>
      if IsPlaceholder(s) then PlaceholderName(s) in env && w == VStr(env[PlaceholderName(s)])
      else w == v
    case _ => w == v
  }

  predicate ReplacedEntries(es: seq<Entry>, fs: seq<Entry>, env: Env)
    decreases es
  {
    |es| == |fs| &&
    (es != [] ==> es[0].key == fs[0].key && Replaced(es[0].value, fs[0].value, env) &&
                  ReplacedEntries(es[1..], fs[1..], env))
  }

  predicate ReplacedItems(xs: seq<Value>, ys: seq<Value>, env: Env)
    decreases xs
  {
    |xs| == |ys| &&
    (xs != [] ==> Replaced(xs[0], ys[0], env) && ReplacedItems(xs[1..], ys[1..], env))
  }

  /** A successful substitution keeps the shape of the document and puts
      each placeholder's environment value in its place, at every depth. */
  lemma {:induction false} SubstituteKeepsShape(v: Value, env: Env)
    ensures Substitute(v, env).Ok? ==> Replaced(v, Substitute(v, env).value, env)
    decreases v
  {
    match v
    case VMap(es) => SubstituteEntriesKeepShape(es, env);
    case VList(xs) => SubstituteItemsKeepShape(xs, env);
    case VStr(s) =>
    case _ =>
  }

  lemma {:induction false} SubstituteEntriesKeepShape(es: seq<Entry>, env: Env)
    ensures SubstituteEntries(es, env).Ok? ==> ReplacedEntries(es, SubstituteEntries(es, env).value, env)
    decreases es
  {
    if es != [] {
      SubstituteKeepsShape(es[0].value, env);
      SubstituteEntriesKeepShape(es[1..], env);
      if SubstituteEntries(es, env).Ok? {
        var fs := SubstituteEntries(es, env).value;
        assert fs[1..] == SubstituteEntries(es[1..], env).value;
      }
    }
  }

  lemma {:induction false} SubstituteItemsKeepShape(xs: seq<Value>, env: Env)
    ensures SubstituteItems(xs, env).Ok? ==> ReplacedItems(xs, SubstituteItems(xs, env).value, env)
    decreases xs
  {
    if xs != [] {
      SubstituteKeepsShape(xs[0], env);
      SubstituteItemsKeepShape(xs[1..], env);
      if SubstituteItems(xs, env).Ok? {
        var ys := SubstituteItems(xs, env).value;
        assert ys[1..] == SubstituteItems(xs[1..], env).value;
      }
    }
  }

  /** A document without placeholders comes back unchanged. */
  lemma {:induction false} SubstituteWithoutPlaceholders(v: Value, env: Env)
    requires Placeholders(v) == []
    ensures Substitute(v, env) == Ok(v)
    decreases v
  {
    match v
    case VMap(es) => SubstituteEntriesWithoutPlaceholders(es, env);
    case VList(xs) => SubstituteItemsWithoutPlaceholders(xs, env);
    case VStr(s) =>
    case _ =>
  }

  lemma {:induction false} SubstituteEntriesWithoutPlaceholders(es: seq<Entry>, env: Env)
    requires EntriesPlaceholders(es) == []
    ensures SubstituteEntries(es, env) == Ok(es)
    decreases es
  {
    if es != [] {
      SubstituteWithoutPlaceholders(es[0].value, env);
      SubstituteEntriesWithoutPlaceholders(es[1..], env);
      assert [Entry(es[0].key, es[0].value)] + es[1..] == es;
    }
  }

  lemma {:induction false} SubstituteItemsWithoutPlaceholders(xs: seq<Value>, env: Env)
    requires ItemsPlaceholders(xs) == []
    ensures SubstituteItems(xs, env) == Ok(xs)
    decreases xs
  {
    if xs != [] {
      SubstituteWithoutPlaceholders(xs[0], env);
      SubstituteItemsWithoutPlaceholders(xs[1..], env);
      assert [xs[0]] + xs[1..] == xs;
    }
  }

  /** The string `${NAME}` becomes the value of `NAME`, or substitution
      fails naming `NAME` when it is unset. */
  lemma PlaceholderReplaced(name: string, env: Env)
    ensures Substitute(VStr("${" + name + "}"), env) ==
            if name in env then Ok(VStr(env[name])) else Err(EnvVarNotFound(name))
  {
  }

  // ---------------------------------------------------------------------
  // Validation

  const RequiredSections: seq<string> := ["repository", "monitoring", "email"]
  const RepositoryFields: seq<string> := ["owner", "name", "token"]
  const MonitoringFields: seq<string> := ["issue_threshold_days", "check_interval_hours", "pr_lookback_hours"]
  const EmailFields: seq<string> := ["smtp_host", "smtp_port", "username", "password", "recipients"]

  /** The value of the first entry with this key. */
  function Lookup(es: seq<Entry>, key: string): Option<Value> {
    if es == [] then None
    else if es[0].key == key then Some(es[0].value)
    else Lookup(es[1..], key)
  }

  predicate IsPrefix(p: string, s: string) {
    |p| <= |s| && s[..|p|] == p
  }

  /** `p` occurs somewhere inside `s`. */
  predicate IsSubstring(p: string, s: string)
    decreases |s|
  {
    IsPrefix(p, s) || (s != [] && IsSubstring(p, s[1..]))
  }

  /** Python's `key in container`: a key test on a mapping, an element test
      on a list, a substring test on a string; `None` where Python raises
      `TypeError`. */
  function Contains(container: Value, key: string): Option<bool> {
    match container
    case VMap(es) => Some(Lookup(es, key).Some?)
    case VList(xs) => Some(VStr(key) in xs)
    case VStr(s) => Some(IsSubstring(key, s))
    case _ => None
  }

  /** Python's `container[key]` with a string key; `None` where it raises. */
  function Subscript(container: Value, key: string): Option<Value> {
    if container.VMap? then Lookup(container.entries, key) else None
  }

  /** `isinstance(v, int)`; a boolean is an `int` in Python. */
  predicate IsPyInt(v: Value) {
    v.VInt? || v.VBool?
  }

  /** The integer Python sees in a value that passes `isinstance(v, int)`. */
  function AsInt(v: Value): int
    requires IsPyInt(v)
  {
    if v.VInt? then v.i else if v.b then 1 else 0
  }

  /** The loop `for key in keys: if key not in container: raise ...`. */
  function RequirePresent(container: Value, keys: seq<string>, missing: string -> ConfigError): (r: Outcome<ConfigError>)
    ensures r.Pass? ==> AllPresent(container, keys)
    ensures r.Fail? && r.error != TypeError ==>
              exists key :: key in keys && Contains(container, key) == Some(false) && r.error == missing(key)
  {
    if keys == [] then Pass
    else match Contains(container, keys[0])
      case None => Fail(TypeError)
      case Some(false) => Fail(missing(keys[0]))
      case Some(true) => RequirePresent(container, keys[1..], missing)
  }

  /** `if not isinstance(section[field], int): raise ...`. */
  function RequireInt(section: Value, field: string): (r: Outcome<ConfigError>)
    ensures r.Pass? <==> IntField(section, field)
    ensures r.Fail? ==> r.error == TypeError || r.error == NotAnInteger(field)
  {
    match Subscript(section, field)
    case None => Fail(TypeError)
    case Some(v) => if IsPyInt(v) then Pass else Fail(NotAnInteger(field))
  }

  function RequireRecipients(email: Value): (r: Outcome<ConfigError>)
    ensures r.Pass? <==> NonEmptyListField(email, "recipients")
    ensures r.Fail? ==> r.error in {TypeError, RecipientsNotList, NoRecipients}
  {
    match Subscript(email, "recipients")
    case None => Fail(TypeError)
    case Some(v) =>
      if !v.VList? then Fail(RecipientsNotList)
      else if v.items == [] then Fail(NoRecipients)
      else Pass
  }

  function SectionMissing(s: string): ConfigError { MissingSection(s) }
  function RepositoryFieldMissing(f: string): ConfigError { MissingField("repository", f) }
  function MonitoringFieldMissing(f: string): ConfigError { MissingField("monitoring", f) }
  function EmailFieldMissing(f: string): ConfigError { MissingField("email", f) }

  /** The field checks and type checks once the three sections are known to
      be present, in the order the source performs them. */
  function ValidateSections(config: Value): (r: Outcome<ConfigError>)
    ensures r.Pass? ==> ValidSections(config)
  {
    match Subscript(config, "repository")
    case None => Fail(TypeError)
    case Some(repo) =>
      var r := RequirePresent(repo, RepositoryFields, RepositoryFieldMissing);
      if r.Fail? then r else
      match Subscript(config, "monitoring")
      case None => Fail(TypeError)
      case Some(monitoring) =>
        var m := RequirePresent(monitoring, MonitoringFields, MonitoringFieldMissing);
        if m.Fail? then m else
        match Subscript(config, "email")
        case None => Fail(TypeError)
        case Some(email) =>
          var e := RequirePresent(email, EmailFields, EmailFieldMissing);
          if e.Fail? then e
          else if RequireInt(monitoring, "issue_threshold_days").Fail? then RequireInt(monitoring, "issue_threshold_days")
          else if RequireInt(monitoring, "check_interval_hours").Fail? then RequireInt(monitoring, "check_interval_hours")
          else if RequireInt(monitoring, "pr_lookback_hours").Fail? then RequireInt(monitoring, "pr_lookback_hours")
          else if RequireInt(email, "smtp_port").Fail? then RequireInt(email, "smtp_port")
          else RequireRecipients(email)
  }

  /** Validation: the first failing check, or `Pass`. */
  function ValidateConfig(config: Value): (r: Outcome<ConfigError>)
    ensures r.Pass? ==> ValidConfig(config)
  {
    var s := RequirePresent(config, RequiredSections, SectionMissing);
    if s.Fail? then s else ValidateSections(config)
  }

  /** Every key is present in the container. */
  predicate AllPresent(container: Value, keys: seq<string>) {
    forall k :: 0 <= k < |keys| ==> Contains(container, keys[k]) == Some(true)
  }

  /** `section[field]` exists and passes `isinstance(..., int)`. */
  predicate IntField(section: Value, field: string) {
    Subscript(section, field).Some? && IsPyInt(Subscript(section, field).value)
  }

  /** `section[field]` exists and is a non-empty list. */
  predicate NonEmptyListField(section: Value, field: string) {
    Subscript(section, field).Some? && Subscript(section, field).value.VList? &&
    Subscript(section, field).value.items != []
  }

  /** What a valid configuration is, stated declaratively. */
  predicate ValidConfig(config: Value) {
    && config.VMap?
    && AllPresent(config, RequiredSections)
    && ValidSections(config)
  }

  /** The fields and types a valid configuration's sections hold. */
  predicate ValidSections(config: Value) {
    && config.VMap?
    && var repo := Lookup(config.entries, "repository");
    && var monitoring := Lookup(config.entries, "monitoring");
    && var email := Lookup(config.entries, "email");
    && repo.Some? && monitoring.Some? && email.Some?
    && AllPresent(repo.value, RepositoryFields)
    && monitoring.value.VMap? && AllPresent(monitoring.value, MonitoringFields)
    && email.value.VMap? && AllPresent(email.value, EmailFields)
    && IntField(monitoring.value, "issue_threshold_days")
    && IntField(monitoring.value, "check_interval_hours")
    && IntField(monitoring.value, "pr_lookback_hours")
    && IntField(email.value, "smtp_port")
    && NonEmptyListField(email.value, "recipients")
  }

  lemma {:induction false} RequirePresentPasses(container: Value, keys: seq<string>, missing: string -> ConfigError)
    ensures RequirePresent(container, keys, missing) == Pass <==> AllPresent(container, keys)
  {
    if keys != [] {
      RequirePresentPasses(container, keys[1..], missing);
      assert forall k :: 1 <= k < |keys| ==> keys[k] == keys[1..][k - 1];
    }
  }

  /** When the keys before position `i` are present and the key at `i` is
      not, the check reports the key at `i`. */
  lemma {:induction false} RequirePresentFirstMissing(container: Value, keys: seq<string>, missing: string -> ConfigError, i: nat)
    requires i < |keys|
    requires forall k :: 0 <= k < i ==> Contains(container, keys[k]) == Some(true)
    requires Contains(container, keys[i]) == Some(false)
    ensures RequirePresent(container, keys, missing) == Fail(missing(keys[i]))
  {
    if i > 0 {
      RequirePresentFirstMissing(container, keys[1..], missing, i - 1);
    }
  }

  /** Validation passes exactly for the configurations described by
      `ValidConfig`. */
  lemma ValidateConfigPasses(config: Value)
    ensures ValidateConfig(config) == Pass <==> ValidConfig(config)
  {
    RequirePresentPasses(config, RequiredSections, SectionMissing);
    if AllPresent(config, RequiredSections) {
      assert Contains(config, "repository") == Some(true) by {
        assert RequiredSections[0] == "repository";
      }
      assert Contains(config, "monitoring") == Some(true) by {
        assert RequiredSections[1] == "monitoring";
      }
      assert Contains(config, "email") == Some(true) by {
        assert RequiredSections[2] == "email";
      }
      var repo := Subscript(config, "repository");
      var monitoring := Subscript(config, "monitoring");
      var email := Subscript(config, "email");
      if repo.Some? {
        RequirePresentPasses(repo.value, RepositoryFields, RepositoryFieldMissing);
      }
      if monitoring.Some? {
        RequirePresentPasses(monitoring.value, MonitoringFields, MonitoringFieldMissing);
        if AllPresent(monitoring.value, MonitoringFields) && monitoring.value.VMap? {
          assert Contains(monitoring.value, MonitoringFields[0]) == Some(true);
          assert Contains(monitoring.value, MonitoringFields[1]) == Some(true);
          assert Contains(monitoring.value, MonitoringFields[2]) == Some(true);
        }
      }
      if email.Some? {
        RequirePresentPasses(email.value, EmailFields, EmailFieldMissing);
        if AllPresent(email.value, EmailFields) && email.value.VMap? {
          assert Contains(email.value, EmailFields[1]) == Some(true);
          assert Contains(email.value, EmailFields[4]) == Some(true);
        }
      }
    }
  }

  /** A configuration mapping missing a section is rejected naming the first
      missing section in the order repository, monitoring, email. */
  lemma MissingSectionReported(entries: seq<Entry>, i: nat)
    requires i < |RequiredSections|
    requires forall k :: 0 <= k < i ==> Lookup(entries, RequiredSections[k]).Some?
    requires Lookup(entries, RequiredSections[i]).None?
    ensures ValidateConfig(VMap(entries)) == Fail(MissingSection(RequiredSections[i]))
  {
    RequirePresentFirstMissing(VMap(entries), RequiredSections, SectionMissing, i);
  }

  /** A repository section missing a field is rejected naming the first
      missing one in the order owner, name, token. */
  lemma MissingRepositoryFieldReported(entries: seq<Entry>, repo: seq<Entry>, i: nat)
    requires AllPresent(VMap(entries), RequiredSections)
    requires Lookup(entries, "repository") == Some(VMap(repo))
    requires i < |RepositoryFields|
    requires forall k :: 0 <= k < i ==> Lookup(repo, RepositoryFields[k]).Some?
    requires Lookup(repo, RepositoryFields[i]).None?
    ensures ValidateConfig(VMap(entries)) == Fail(MissingField("repository", RepositoryFields[i]))
  {
    RequirePresentPasses(VMap(entries), RequiredSections, SectionMissing);
    RequirePresentFirstMissing(VMap(repo), RepositoryFields, RepositoryFieldMissing, i);
  }

  /** A required field missing from any of the three sections makes
      validation fail. */
  lemma MissingFieldRejected(config: Value, section: string, fields: seq<string>, entries: seq<Entry>, i: nat)
    requires (section, fields) in {("repository", RepositoryFields), ("monitoring", MonitoringFields), ("email", EmailFields)}
    requires config.VMap? && Lookup(config.entries, section) == Some(VMap(entries))
    requires i < |fields| && Lookup(entries, fields[i]).None?
    ensures ValidateConfig(config).Fail?
  {
    assert !AllPresent(VMap(entries), fields) by {
      assert Contains(VMap(entries), fields[i]) == Some(false);
    }
    ValidateConfigPasses(config);
  }

  /** A configuration whose threshold is negative, whose interval is zero,
      whose lookback is the boolean `true` and whose SMTP port is negative. */
  function OddButValidConfig(): Value {
    VMap([Entry("repository", PlainRepository()), Entry("monitoring", OddMonitoring()), Entry("email", OddEmail())])
  }

  function PlainRepository(): Value {
    VMap([Entry("owner", VStr("o")), Entry("name", VStr("n")), Entry("token", VStr("t"))])
  }

  function OddMonitoring(): Value {
    VMap([Entry("issue_threshold_days", VInt(-1)),
          Entry("check_interval_hours", VInt(0)),
          Entry("pr_lookback_hours", VBool(true))])
  }

  function OddEmail(): Value {
    VMap([Entry("smtp_host", VStr("h")), Entry("smtp_port", VInt(-25)),
          Entry("username", VStr("u")), Entry("password", VStr("p")),
          Entry("recipients", VList([VStr("a@b")]))])
  }

  /** The odd monitoring section has every field, each an `int` to Python. */
  lemma OddMonitoringFields()
    ensures AllPresent(OddMonitoring(), MonitoringFields)
    ensures IntField(OddMonitoring(), "issue_threshold_days")
    ensures IntField(OddMonitoring(), "check_interval_hours")
    ensures IntField(OddMonitoring(), "pr_lookback_hours")
  {
  }

  /** The odd email section has every field, an `int` port and recipients. */
  lemma OddEmailFields()
    ensures AllPresent(OddEmail(), EmailFields)
    ensures IntField(OddEmail(), "smtp_port")
    ensures NonEmptyListField(OddEmail(), "recipients")
  {
  }

  /** Validation checks types but not signs: zero and negative values, and
      a boolean where an integer is expected, are accepted. */
  lemma NonPositiveValuesAccepted()
    ensures ValidateConfig(OddButValidConfig()) == Pass
  {
    var c := OddButValidConfig();
    assert Lookup(c.entries, "repository") == Some(PlainRepository());
    assert Lookup(c.entries, "monitoring") == Some(OddMonitoring());
    assert Lookup(c.entries, "email") == Some(OddEmail());
    assert AllPresent(c, RequiredSections);
    var repo := PlainRepository();
    assert Lookup(repo.entries, "owner").Some?;
    assert Lookup(repo.entries, "name").Some?;
    assert Lookup(repo.entries, "token").Some?;
    assert AllPresent(repo, RepositoryFields);
    OddMonitoringFields();
    OddEmailFields();
    assert ValidConfig(c);
    ValidateConfigPasses(c);
  }

  // ---------------------------------------------------------------------
  // Initial state

  /** `config[section][field]`, or `None` where it raises. */
  function Get(config: Value, section: string, field: string): Option<Value> {
    match Subscript(config, section)
    case None => None
    case Some(s) => Subscript(s, field)
  }

  predicate IsText(v: Option<Value>) {
    v.Some? && v.value.VStr?
  }

  /** A validated configuration whose text fields hold strings and whose
      recipients are all strings: what the state record's field types ask
      of it. */
  predicate ReadyForState(config: Value) {
    && ValidConfig(config)
    && IsText(Get(config, "repository", "owner"))
    && IsText(Get(config, "repository", "name"))
    && IsText(Get(config, "repository", "token"))
    && IsText(Get(config, "email", "smtp_host"))
    && IsText(Get(config, "email", "username"))
    && IsText(Get(config, "email", "password"))
    && Get(config, "monitoring", "issue_threshold_days").Some?
    && IsPyInt(Get(config, "monitoring", "issue_threshold_days").value)
    && Get(config, "email", "smtp_port").Some?
    && IsPyInt(Get(config, "email", "smtp_port").value)
    && Get(config, "email", "recipients").Some?
    && Get(config, "email", "recipients").value.VList?
    && forall k :: 0 <= k < |Get(config, "email", "recipients").value.items| ==>
         Get(config, "email", "recipients").value.items[k].VStr?
  }

  /** The recipient addresses of a list of strings. */
  function Addresses(xs: seq<Value>): (r: seq<string>)
    requires forall k :: 0 <= k < |xs| ==> xs[k].VStr?
    ensures |r| == |xs| && forall k :: 0 <= k < |xs| ==> xs[k] == VStr(r[k])
  {
    seq(|xs|, k requires 0 <= k < |xs| => xs[k].s)
  }

  /** The initial state: repository identity, threshold, recipients and
      mail settings from the configuration; every other field at its
      default. */
  method CreateInitialState(config: Value) returns (state: RepoMonitorState)
    requires ReadyForState(config)
    ensures fresh(state)
    ensures VStr(state.repoOwner) == Get(config, "repository", "owner").value
    ensures VStr(state.repoName) == Get(config, "repository", "name").value
    ensures VStr(state.githubToken) == Get(config, "repository", "token").value
    ensures state.issueThresholdDays == AsInt(Get(config, "monitoring", "issue_threshold_days").value)
    ensures VList(StringValues(state.emailRecipients)) == Get(config, "email", "recipients").value
    ensures VStr(state.smtpHost) == Get(config, "email", "smtp_host").value
    ensures state.smtpPort == AsInt(Get(config, "email", "smtp_port").value)
    ensures VStr(state.emailUsername) == Get(config, "email", "username").value
    ensures VStr(state.emailPassword) == Get(config, "email", "password").value
    ensures state.View() == CycleView([], [], None, [], false, false, [], [])
  {
    var recipients := Get(config, "email", "recipients").value.items;
    state := new RepoMonitorState(
      Get(config, "repository", "owner").value.s,
      Get(config, "repository", "name").value.s,
      Get(config, "repository", "token").value.s,
      issueThresholdDays := AsInt(Get(config, "monitoring", "issue_threshold_days").value),
      emailRecipients := Addresses(recipients),
      smtpHost := Get(config, "email", "smtp_host").value.s,
      smtpPort := AsInt(Get(config, "email", "smtp_port").value),
      emailUsername := Get(config, "email", "username").value.s,
      emailPassword := Get(config, "email", "password").value.s);
    assert StringValues(Addresses(recipients)) == recipients;
  }

  /** Strings as YAML values. */
  function StringValues(ss: seq<string>): (r: seq<Value>)
    ensures |r| == |ss| && forall k :: 0 <= k < |ss| ==> r[k] == VStr(ss[k])
  {
    seq(|ss|, k requires 0 <= k < |ss| => VStr(ss[k]))
  }
}
