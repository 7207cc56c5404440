/**
 * Translation lookup (`src/i18n.ts`): a dotted key walks a tree of
 * translation resources, a missing segment yields the key itself, and
 * `{name}` placeholders are filled in, first occurrence only, parameter by
 * parameter. Also the choice of the initial language.
 */
module I18n {
  import opened Wrappers
  import opened Text

  /** A translation resource: a string, or a group of named entries. */
  datatype Entry = Leaf(text: string) | Group(children: map<string, Entry>)

  /** The entry reached by following `keys` from `e`, if every segment exists. */
  function Lookup(e: Entry, keys: seq<string>): Option<Entry>
    decreases |keys|
  {
    if keys == [] then Some(e)
    else match e
      case Leaf(_) => None
      case Group(m) => if keys[0] in m then Lookup(m[keys[0]], keys[1..]) else None
  }

  /** A walk along `a + b` is the walk along `a` continued along `b`. */
  lemma {:induction false} LookupAppend(e: Entry, a: seq<string>, b: seq<string>)
    ensures Lookup(e, a + b) == match Lookup(e, a) case None => None case Some(mid) => Lookup(mid, b)
    decreases |a|
  {
    if a == [] {
      assert a + b == b;
    } else {
      assert (a + b)[0] == a[0] && (a + b)[1..] == a[1..] + b;
      match e
      case Leaf(_) =>
      case Group(m) =>
        if a[0] in m {
          LookupAppend(m[a[0]], a[1..], b);
        }
    }
  }

  function Placeholder(name: string): string {
    "{" + name + "}"
  }

  /** The `reduce` over the parameters: each replaces the first `{name}` of the text so far. */
  function Substitute(s: string, params: seq<(string, string)>): string
    decreases |params|
  {
    if params == [] then s
    else Substitute(ReplaceFirst(s, Placeholder(params[0].0), params[0].1), params[1..])
  }

  /** Substitution is a left fold: parameters are applied one after the other, in order. */
  lemma {:induction false} SubstituteAppend(s: string, p: seq<(string, string)>, q: seq<(string, string)>)
    ensures Substitute(s, p + q) == Substitute(Substitute(s, p), q)
    decreases |p|
  {
    if p == [] {
      assert p + q == q;
    } else {
      assert (p + q)[0] == p[0] && (p + q)[1..] == p[1..] + q;
      SubstituteAppend(ReplaceFirst(s, Placeholder(p[0].0), p[0].1), p[1..], q);
    }
  }

  /** A parameter whose placeholder does not occur leaves the text as it is. */
  lemma SubstituteAbsentPlaceholder(s: string, name: string, value: string)
    requires !Contains(s, Placeholder(name))
    ensures Substitute(s, [(name, value)]) == s
  {
  }

  /** A placeholder that occurs twice is filled in only once. */
  lemma OnlyFirstOccurrenceFilled()
    ensures Substitute("{n}-{n}", [("n", "x")]) == "x-{n}"
  {
    var s := "{n}-{n}";
    assert OccursAt(s, Placeholder("n"), 0);
    assert IndexOf(s, Placeholder("n")) == Some(0);
    assert ReplaceFirst(s, Placeholder("n"), "x") == "x-{n}";
  }

  /**
   * What `t(key, params)` returns: the key when a segment is missing, the
   * substituted string when the path ends at a string, and the group itself
   * when it ends at a group.
   */
  function Translated(translations: Entry, key: string, params: seq<(string, string)>): (r: Entry)
    ensures Lookup(translations, Split(key, '.')).None? ==> r == Leaf(key)
    ensures Lookup(translations, Split(key, '.')).Some? && Lookup(translations, Split(key, '.')).value.Leaf? ==>
      r == Leaf(Substitute(Lookup(translations, Split(key, '.')).value.text, params))
    ensures r.Group? ==> Lookup(translations, Split(key, '.')) == Some(r)
    ensures Lookup(translations, Split(key, '.')).Some? && Lookup(translations, Split(key, '.')).value.Group? ==>
      r == Lookup(translations, Split(key, '.')).value
    ensures params == [] && Lookup(translations, Split(key, '.')).Some? ==> r == Lookup(translations, Split(key, '.')).value
  {
    match Lookup(translations, Split(key, '.'))
    case None => Leaf(key)
    case Some(Leaf(s)) => Leaf(Substitute(s, params))
    case Some(g) => g
  }

  /** A walk that stops early, at a string or at a group without the next segment, yields the key. */
  lemma MissingSegmentYieldsKey(translations: Entry, key: string, params: seq<(string, string)>, i: nat, reached: Entry)
    requires i < |Split(key, '.')|
    requires Lookup(translations, Split(key, '.')[..i]) == Some(reached)
    requires reached.Leaf? || Split(key, '.')[i] !in reached.children
    ensures Translated(translations, key, params) == Leaf(key)
  {
    var keys := Split(key, '.');
    LookupAppend(translations, keys[..i], keys[i..]);
    assert keys[..i] + keys[i..] == keys;
  }

  /** `t`: the walk over the key's segments, then the substitution. */
  method Translate(translations: Entry, key: string, params: seq<(string, string)>) returns (r: Entry)
    ensures r == Translated(translations, key, params)
  {
    var keys := Split(key, '.');
    var result := translations;
    for i := 0 to |keys|
      invariant Lookup(translations, keys[..i]) == Some(result)
    {
      if result.Leaf? || keys[i] !in result.children {
        MissingSegmentYieldsKey(translations, key, params, i, result);
        return Leaf(key);
      }
      LookupAppend(translations, keys[..i], [keys[i]]);
      assert keys[..i + 1] == keys[..i] + [keys[i]];
      result := result.children[keys[i]];
    }
    assert keys[..|keys|] == keys;
    if result.Leaf? {
      return Leaf(Substitute(result.text, params));
    }
    return result;
  }

  datatype Language = En | Zh

  function Code(l: Language): string {
    match l
    case En => "en"
    case Zh => "zh"
  }

  /** The supported language with this code, if any. */
  function Supported(code: string): (r: Option<Language>)
    ensures r.Some? <==> code == "en" || code == "zh"
    ensures r.Some? ==> Code(r.value) == code
  {
    if code == "en" then Some(En) else if code == "zh" then Some(Zh) else None
  }

  /** The part of a browser language tag before its first `-`. */
  function BrowserPrefix(tag: string): string {
    Split(tag, '-')[0]
  }

  /** `getInitialLanguage`: a supported saved choice, else the browser's prefix if supported, else Chinese. */
  function InitialLanguage(saved: Option<string>, browserTag: string): (r: Language)
    ensures saved.Some? && Supported(saved.value).Some? ==> Code(r) == saved.value
    ensures !(saved.Some? && Supported(saved.value).Some?) ==>
      r == (if Supported(BrowserPrefix(browserTag)).Some? then Supported(BrowserPrefix(browserTag)).value else Zh)
  {
    if saved.Some? && Supported(saved.value).Some? then Supported(saved.value).value
    else match Supported(BrowserPrefix(browserTag))
      case Some(l) => l
      case None => Zh
  }

  /** A stored choice is restored, whatever the browser says. */
  lemma SavedLanguageRestored(l: Language, browserTag: string)
    ensures InitialLanguage(Some(Code(l)), browserTag) == l
  {
  }

  lemma BrowserPrefixOfTag(code: string, region: string)
    requires '-' !in code
    ensures BrowserPrefix(code) == code
    ensures BrowserPrefix(code + "-" + region) == code
  {
    SplitHead(code, '-');
    var tag := code + "-" + region;
    assert tag[|code|] == '-' && tag[..|code|] == code;
    SplitHead(tag, '-');
  }

  /** Without a saved choice, a regional tag such as `en-US` or `zh-CN` selects its language. */
  lemma RegionalBrowserTag(l: Language, region: string)
    ensures InitialLanguage(None, Code(l) + "-" + region) == l
  {
    BrowserPrefixOfTag(Code(l), region);
  }

  /** Without a saved choice, an unsupported browser language falls back to Chinese, with or without a region. */
  lemma UnsupportedBrowserFallsBack(code: string, region: string)
    requires '-' !in code && Supported(code).None?
    ensures InitialLanguage(None, code) == Zh
    ensures InitialLanguage(None, code + "-" + region) == Zh
  {
    BrowserPrefixOfTag(code, region);
  }
}
