/**
 * Message translation: a table of translation objects per locale, the
 * current locale, and `t`, which follows a dotted key through the current
 * locale's nested object and fills `{name}` placeholders.
 *
 * The translation file's content is an input (the table holds only the
 * `zh-CN` locale).
 */
module I18n {
  import opened Wrappers
  import opened Json
  import Text

  const DefaultLocale := "zh-CN"

  /**
   * The names every plain JavaScript object inherits from `Object.prototype`.
   * Indexing the locale table with one of them finds a value the table does
   * not hold: a function, or `Object.prototype` itself for `__proto__`; all
   * of them are truthy.
   */
  const InheritedNames: set<string> := {"constructor", "__proto__", "__defineGetter__", "__defineSetter__",
    "__lookupGetter__", "__lookupSetter__", "hasOwnProperty", "isPrototypeOf", "propertyIsEnumerable",
    "toLocaleString", "toString", "valueOf"}

  /** `value[k]` for a value that is an object: an object's field, an array's element or length. */
  function Member(v: Json, k: string): (r: Option<Json>)
    requires v.JObj? || v.JArr?
    ensures v.JObj? ==> r == Get(v, k)
    ensures v.JArr? && k == "length" ==> r == Some(JNum(|v.items|))
    ensures v.JArr? ==> forall i :: 0 <= i < |v.items| && k == Text.NatToString(i) ==> r == Some(v.items[i])
    ensures v.JArr? && k != "length" && r.Some? ==>
      exists i :: 0 <= i < |v.items| && k == Text.NatToString(i) && r == Some(v.items[i])
  {
    if v.JObj? then Get(v, k)
    else if k == "length" then Some(JNum(|v.items|))
    else if k != "" && Text.AllDigits(k) && Text.DigitsValue(k) < |v.items| && Text.NatToString(Text.DigitsValue(k)) == k
    then Some(v.items[Text.DigitsValue(k)])
    else None
  }

  /**
   * Following the segments from `value` (`None` is `undefined`): the string
   * reached, or `None` when a segment meets a non-object or the value
   * reached is not a string.
   */
  function Resolve(value: Option<Json>, keys: seq<string>): (r: Option<string>)
    ensures |keys| == 0 ==> (r.Some? <==> value.Some? && value.value.JStr?)
    ensures |keys| == 0 && r.Some? ==> r.value == value.value.s
    ensures |keys| > 0 && r.Some? ==> value.Some? && (value.value.JObj? || value.value.JArr?)
    decreases |keys|
  {
    if |keys| == 0 then
      if value.Some? && value.value.JStr? then Some(value.value.s) else None
    else if value.Some? && (value.value.JObj? || value.value.JArr?) then
      Resolve(Member(value.value, keys[0]), keys[1..])
    else None
  }

  /** A key that leads to a string cannot be extended: one more segment meets a non-object. */
  lemma {:induction false} NoPathThroughLeaf(value: Option<Json>, keys: seq<string>, extra: string)
    requires Resolve(value, keys).Some?
    ensures Resolve(value, keys + [extra]).None?
    decreases |keys|
  {
    if |keys| > 0 {
      NoPathThroughLeaf(Member(value.value, keys[0]), keys[1..], extra);
      assert (keys + [extra])[1..] == keys[1..] + [extra];
    }
  }

  /** A key that leads to an object (a section, not a message) does not resolve. */
  lemma {:induction false} SectionDoesNotResolve(v: Json, keys: seq<string>, section: map<string, Json>)
    requires |keys| > 0 && v.JObj? && Get(v, keys[0]) == Some(JObj(section)) && |keys| == 1
    ensures Resolve(Some(v), keys).None?
  {
    assert Resolve(Some(v), keys) == Resolve(Some(JObj(section)), keys[1..]);
  }

  /** The placeholder for a parameter name. */
  function Placeholder(name: string): (p: string)
    ensures |p| == |name| + 2 && p[0] == '{' && p[|p| - 1] == '}'
  {
    "{" + name + "}"
  }

  /** The parameters applied one after the other, in entry order. */
  function ApplyParams(s: string, params: seq<(string, string)>): (r: string)
    ensures |params| == 0 ==> r == s
    ensures |params| == 1 ==> r == Text.ReplaceAll(s, Placeholder(params[0].0), params[0].1)
    decreases |params|
  {
    if |params| == 0 then s
    else ApplyParams(Text.ReplaceAll(s, Placeholder(params[0].0), params[0].1), params[1..])
  }

  /** Applying two runs of parameters is applying their concatenation. */
  lemma {:induction false} ApplyParamsConcat(s: string, a: seq<(string, string)>, b: seq<(string, string)>)
    ensures ApplyParams(s, a + b) == ApplyParams(ApplyParams(s, a), b)
    decreases |a|
  {
    if |a| > 0 {
      ApplyParamsConcat(Text.ReplaceAll(s, Placeholder(a[0].0), a[0].1), a[1..], b);
      assert (a + b)[0] == a[0] && (a + b)[1..] == a[1..] + b;
    } else {
      assert a + b == b;
    }
  }

  /** Parameters whose placeholders the message lacks leave it unchanged. */
  lemma {:induction false} ApplyParamsAbsent(s: string, a: seq<(string, string)>)
    requires forall i :: 0 <= i < |a| ==> !Text.Contains(s, Placeholder(a[i].0))
    ensures ApplyParams(s, a) == s
    decreases |a|
  {
    if |a| > 0 {
      assert Text.ReplaceAll(s, Placeholder(a[0].0), a[0].1) == s;
      assert forall i :: 0 <= i < |a[1..]| ==> a[1..][i] == a[i + 1];
      ApplyParamsAbsent(s, a[1..]);
    }
  }

  /** Applying two runs of parameters is applying their concatenation; a message without placeholders is unchanged. */
  lemma ApplyParamsInOrder(s: string, a: seq<(string, string)>, b: seq<(string, string)>)
    ensures ApplyParams(s, a + b) == ApplyParams(ApplyParams(s, a), b)
    ensures (forall i :: 0 <= i < |a| ==> !Text.Contains(s, Placeholder(a[i].0))) ==> ApplyParams(s, a) == s
  {
    ApplyParamsConcat(s, a, b);
    if forall i :: 0 <= i < |a| ==> !Text.Contains(s, Placeholder(a[i].0)) {
      ApplyParamsAbsent(s, a);
    }
  }

  /**
   * What `t` answers for the current locale's object: the key itself when
   * it does not lead to a string, else the string, with the parameters
   * filled in when there are any.
   */
  function Translate(localeTable: Json, key: string, params: Option<seq<(string, string)>>): (r: string)
    ensures Resolve(Some(localeTable), Text.Split(key, '.')).None? ==> r == key
    ensures params.None? ==> r == Resolve(Some(localeTable), Text.Split(key, '.')).GetOr(key)
  {
    match Resolve(Some(localeTable), Text.Split(key, '.'))
    case None => key
    case Some(s) => if params.Some? then ApplyParams(s, params.value) else s
  }

  /** A key written as its segments joined by dots translates by following those segments. */
  lemma KeyFollowsSegments(localeTable: Json, segments: seq<string>, params: Option<seq<(string, string)>>)
    requires |segments| >= 1 && forall i :: 0 <= i < |segments| ==> '.' !in segments[i]
    ensures var key := Text.Join(segments, ".");
      Translate(localeTable, key, params) ==
        match Resolve(Some(localeTable), segments)
        case None => key
        case Some(s) => if params.Some? then ApplyParams(s, params.value) else s
  {
    Text.SplitJoin(segments, '.');
  }

  /** The translation module's state: the table per locale and the current locale. */
  class Translator {
    const translations: map<string, Json>
    var currentLocale: string

    /** The current locale has a table, or is an inherited name the table does not hold. */
    predicate Valid()
      reads this
    {
      currentLocale in translations || currentLocale in InheritedNames
    }

    /** `translations[locale]` is truthy: an own truthy table, or an inherited name the table does not shadow. */
    predicate Accepts(locale: string)
    {
      if locale in translations then Truthy(translations[locale]) else locale in InheritedNames
    }

    constructor(zhCN: Json)
      ensures translations == map[DefaultLocale := zhCN] && currentLocale == DefaultLocale && Valid()
    {
      translations := map[DefaultLocale := zhCN];
      currentLocale := DefaultLocale;
    }

    /**
     * `setLocale`: a locale switches exactly when indexing the table with it
     * gives a truthy value, which includes the inherited names.
     */
    method SetLocale(locale: string)
      requires Valid()
      modifies this`currentLocale
      ensures Valid()
      ensures locale in translations && Truthy(translations[locale]) ==> currentLocale == locale
      ensures locale !in translations && locale in InheritedNames ==> currentLocale == locale
      ensures !Accepts(locale) ==> currentLocale == old(currentLocale)
    {
      if Accepts(locale) {
        currentLocale := locale;
      }
    }

    /**
     * `getLocale`: the current locale. It has a translation table unless
     * `setLocale` was given an inherited name.
     */
    function GetLocale(): (r: string)
      reads this
      ensures r == currentLocale
      ensures Valid() ==> r in translations || r in InheritedNames
    {
      currentLocale
    }

    /** `t`: walks the key's segments through the current locale's object, then fills the parameters. */
    method T(key: string, params: Option<seq<(string, string)>>) returns (r: string)
      requires Valid()
      ensures currentLocale in translations ==> r == Translate(translations[currentLocale], key, params)
      ensures currentLocale !in translations ==> r == key
    {
      if currentLocale !in translations {
        // An inherited name's value is a function, or `Object.prototype`, whose
        // members are functions or null: the walk stops at a non-object or ends
        // on a non-string, and the key comes back.
        return key;
      }
      var keys := Text.Split(key, '.');
      var value: Option<Json> := Some(translations[currentLocale]);
      var i := 0;
      while i < |keys|
        invariant 0 <= i <= |keys|
        invariant Resolve(value, keys[i..]) == Resolve(Some(translations[currentLocale]), keys)
      {
        if value.Some? && (value.value.JObj? || value.value.JArr?) {
          assert keys[i..][1..] == keys[i + 1..];
          value := Member(value.value, keys[i]);
        } else {
          return key;
        }
        i := i + 1;
      }
      assert keys[i..] == [];
      if !(value.Some? && value.value.JStr?) {
        return key;
      }
      r := value.value.s;
      if params.Some? {
        r := ApplyParams(r, params.value);
      }
    }
  }

  /** Asking for a locale the table lacks keeps the current one. */
  method UnknownLocaleIgnored(zhCN: Json, locale: string) returns (current: string)
    requires locale != DefaultLocale
    ensures locale !in InheritedNames ==> current == DefaultLocale
    ensures locale in InheritedNames ==> current == locale
  {
    var tr := new Translator(zhCN);
    tr.SetLocale(locale);
    current := tr.GetLocale();
  }

  /** `setLocale('constructor')` is accepted; the locale then has no table, and `t` returns every key as it is. */
  method InheritedLocaleKeepsKeys(zhCN: Json, key: string, params: Option<seq<(string, string)>>)
    returns (current: string, text: string)
    ensures current == "constructor" && text == key
  {
    var tr := new Translator(zhCN);
    tr.SetLocale("constructor");
    current := tr.GetLocale();
    text := tr.T(key, params);
  }

  /** The only placeholder of a message filled with its parameter. */
  lemma FillOnly(name: string)
    ensures ApplyParams("{name}", [("name", name)]) == name
  {
    var params := [("name", name)];
    assert Placeholder(params[0].0) == "{name}";
    assert Text.OccursAt("{name}", "{name}", 0);
    assert Text.IndexOf("{name}", "{name}") == 0;
    assert !Text.Contains("", "{name}");
    assert Text.ReplaceAll("{name}", "{name}", name) == name;
    assert params[1..] == [];
  }

  /** A message reached through its section fills its placeholder. */
  method GreetingFilled(name: string) returns (r: string)
    ensures r == name
  {
    var section := JObj(map["greeting" := JStr("{name}")]);
    var table := JObj(map["chat" := section]);
    var tr := new Translator(table);
    GreetingTranslates(section, table, name);
    r := tr.T("chat.greeting", Some([("name", name)]));
  }

  /** Translating the greeting's key with a name gives that name. */
  lemma GreetingTranslates(section: Json, table: Json, name: string)
    requires section == JObj(map["greeting" := JStr("{name}")]) && table == JObj(map["chat" := section])
    ensures Translate(table, "chat.greeting", Some([("name", name)])) == name
  {
    var segments := ["chat", "greeting"];
    KeyFollowsSegments(table, segments, Some([("name", name)]));
    GreetingKey(segments);
    GreetingResolves(section, table);
    FillOnly(name);
  }

  lemma GreetingKey(segments: seq<string>)
    requires segments == ["chat", "greeting"]
    ensures Text.Join(segments, ".") == "chat.greeting"
  {
  }

  /** The greeting's key leads through the `chat` section to its template. */
  lemma GreetingResolves(section: Json, table: Json)
    requires section == JObj(map["greeting" := JStr("{name}")]) && table == JObj(map["chat" := section])
    ensures Resolve(Some(table), ["chat", "greeting"]) == Some("{name}")
  {
    assert Member(table, "chat") == Some(section);
    assert Resolve(Some(section), ["greeting"]) == Some("{name}") by {
      assert Member(section, "greeting") == Some(JStr("{name}"));
      assert ["greeting"][1..] == [];
    }
    assert ["chat", "greeting"][1..] == ["greeting"];
  }
}
