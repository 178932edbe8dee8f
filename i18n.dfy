/** Internationalisation: dotted-path lookup in a nested translation tree
    with the key path as fallback, `{name}` substitution, the persisted
    language choice and the browser-language match at start-up. */
module I18n {
  import opened Wrappers
  import opened Strings

  /** A translation catalog: a string leaf or an object of named children. */
  datatype Node = Text(text: string) | Group(children: map<string, Node>)

  // Lookup.

  /** Follows `keys` from `tree`: each step needs an object holding the key.
      A string cannot be stepped into. */
  function Resolve(tree: Node, keys: seq<string>): (r: Option<Node>)
    ensures keys == [] ==> r == Some(tree)
    ensures keys != [] && r.Some? ==> tree.Group? && keys[0] in tree.children
    ensures keys != [] && tree.Text? ==> r.None?
    decreases |keys|
  {
    if keys == [] then Some(tree)
    else match tree
      case Text(_) => None
      case Group(children) =>
        if keys[0] in children then Resolve(children[keys[0]], keys[1..]) else None
  }

  /** Following `a + b` is following `a`, then `b` from where it ends. */
  lemma {:induction false} ResolveAppend(tree: Node, a: seq<string>, b: seq<string>)
    ensures Resolve(tree, a + b) == match Resolve(tree, a)
                                    case None => None
                                    case Some(n) => Resolve(n, b)
    decreases |a|
  {
    if a == [] {
      assert a + b == b;
    } else {
      assert (a + b)[0] == a[0] && (a + b)[1..] == a[1..] + b;
      if tree.Group? && a[0] in tree.children {
        ResolveAppend(tree.children[a[0]], a[1..], b);
      }
    }
  }

  /** `getNestedTranslation` as a value: the string at the dotted path, or
      the path itself when a step is missing or the path ends on an object. */
  function Lookup(keyPath: string, tree: Node): (r: string)
    ensures r == keyPath || Resolve(tree, Split(keyPath, '.')) == Some(Text(r))
    ensures Resolve(tree, Split(keyPath, '.')).Some? && Resolve(tree, Split(keyPath, '.')).value.Text? ==>
      r == Resolve(tree, Split(keyPath, '.')).value.text
    ensures Resolve(tree, Split(keyPath, '.')).None? || Resolve(tree, Split(keyPath, '.')).value.Group? ==>
      r == keyPath
  {
    match Resolve(tree, Split(keyPath, '.'))
    case Some(Text(s)) => s
    case _ => keyPath
  }

  /** `getNestedTranslation`: walks the keys one step at a time, returning
      the path as soon as a step fails. */
  method GetNestedTranslation(keyPath: string, tree: Node) returns (r: string)
    ensures r == Lookup(keyPath, tree)
  {
    var keys := Split(keyPath, '.');
    var node := tree;
    for i := 0 to |keys|
      invariant Resolve(tree, keys[..i]) == Some(node)
    {
      ResolveAppend(tree, keys[..i], [keys[i]]);
      assert keys[..i + 1] == keys[..i] + [keys[i]];
      if node.Group? && keys[i] in node.children {
        node := node.children[keys[i]];
      } else {
        ResolveAppend(tree, keys[..i + 1], keys[i + 1..]);
        assert keys[..i + 1] + keys[i + 1..] == keys;
        return keyPath;
      }
    }
    assert keys[..|keys|] == keys;
    r := if node.Text? then node.text else keyPath;
  }

  /** The catalog with `s` stored at `keys`, objects created on the way:
      the reference the lookup is checked against. */
  function Put(tree: Node, keys: seq<string>, s: string): Node
    decreases |keys|
  {
    if keys == [] then Text(s)
    else
      var children := if tree.Group? then tree.children else map[];
      var child := if keys[0] in children then children[keys[0]] else Group(map[]);
      Group(children[keys[0] := Put(child, keys[1..], s)])
  }

  lemma {:induction false} ResolvePut(tree: Node, keys: seq<string>, s: string)
    ensures Resolve(Put(tree, keys, s), keys) == Some(Text(s))
    decreases |keys|
  {
    if keys != [] {
      var children := if tree.Group? then tree.children else map[];
      var child := if keys[0] in children then children[keys[0]] else Group(map[]);
      ResolvePut(child, keys[1..], s);
    }
  }

  /** Storing a string under a dotted path of dot-free keys and looking the
      path up gives the string back. */
  lemma LookupPut(tree: Node, keys: seq<string>, s: string)
    requires |keys| >= 1
    requires forall i :: 0 <= i < |keys| ==> '.' !in keys[i]
    ensures Lookup(Join(keys, "."), Put(tree, keys, s)) == s
  {
    SplitJoin(keys, '.');
    assert Split(Join(keys, "."), '.') == keys;
    ResolvePut(tree, keys, s);
  }

  /** A root that is not an object (as an undefined catalog is not) gives
      back every key path. */
  lemma LookupWithoutCatalog(keyPath: string, s: string)
    ensures Lookup(keyPath, Text(s)) == keyPath
  {
    assert |Split(keyPath, '.')| >= 1;
  }

  // Parameter substitution.

  function Placeholder(name: string): string
  {
    "{" + name + "}"
  }

  /** `text.replace(/pat/g, rep)` for a literal pattern: scans left to right
      and resumes after each replaced occurrence. */
  function ReplaceAll(s: string, pat: string, rep: string): (r: string)
    requires |pat| > 0
    ensures |s| < |pat| ==> r == s
    ensures rep == pat ==> r == s
    decreases |s|
  {
    if |s| < |pat| then s
    else if s[..|pat|] == pat then
      assert s == s[..|pat|] + s[|pat|..];
      rep + ReplaceAll(s[|pat|..], pat, rep)
    else
      assert s == [s[0]] + s[1..];
      [s[0]] + ReplaceAll(s[1..], pat, rep)
  }

  /** A prefix without `{` is copied unchanged. */
  lemma {:induction false} ReplaceAllBracelessPrefix(p: string, t: string, pat: string, rep: string)
    requires |pat| > 0 && pat[0] == '{' && '{' !in p
    ensures ReplaceAll(p + t, pat, rep) == p + ReplaceAll(t, pat, rep)
    decreases |p|
  {
    if p == [] {
      assert p + t == t;
    } else {
      var s := p + t;
      assert s[0] == p[0] && s[1..] == p[1..] + t;
      if |s| >= |pat| {
        assert s[..|pat|][0] != pat[0];
      }
      ReplaceAllBracelessPrefix(p[1..], t, pat, rep);
      assert [p[0]] + (p[1..] + ReplaceAll(t, pat, rep)) == p + ReplaceAll(t, pat, rep);
    }
  }

  /** `pat` occurs in `s` at position `k`. */
  predicate MatchAt(s: string, k: nat, pat: string)
  {
    k + |pat| <= |s| && s[k..k + |pat|] == pat
  }

  predicate Occurs(s: string, pat: string)
  {
    exists k: nat :: k <= |s| && MatchAt(s, k, pat)
  }

  /** A prefix in which a placeholder does not occur is copied unchanged,
      when what follows is empty or starts a new `{`: the placeholder's
      only `{` is its first character, so no occurrence can straddle the
      boundary. */
  lemma {:induction false} ReplaceAllFreePrefix(p: string, t: string, pat: string, rep: string)
    requires |pat| > 0 && pat[0] == '{' && '{' !in pat[1..]
    requires !Occurs(p, pat)
    requires t == [] || t[0] == '{'
    ensures ReplaceAll(p + t, pat, rep) == p + ReplaceAll(t, pat, rep)
    decreases |p|
  {
    if p == [] {
      assert p + t == t;
    } else {
      var s := p + t;
      NoMatchAtStart(p, t, pat);
      assert s[0] == p[0] && s[1..] == p[1..] + t;
      OccursTail(p, pat);
      ReplaceAllFreePrefix(p[1..], t, pat, rep);
      assert [p[0]] + (p[1..] + ReplaceAll(t, pat, rep)) == p + ReplaceAll(t, pat, rep);
    }
  }

  /** The scan does not match at the start of such a prefix. */
  lemma NoMatchAtStart(p: string, t: string, pat: string)
    requires |pat| > 0 && pat[0] == '{' && '{' !in pat[1..]
    requires p != [] && !Occurs(p, pat)
    requires t == [] || t[0] == '{'
    ensures |p + t| < |pat| || (p + t)[..|pat|] != pat
  {
    var s := p + t;
    if |s| >= |pat| {
      if |pat| <= |p| {
        assert !MatchAt(p, 0, pat);
        assert s[..|pat|] == p[0..|pat|];
      } else {
        assert s[|p|] == '{';
        assert pat[|p|] == pat[1..][|p| - 1];
        assert s[..|pat|][|p|] != pat[|p|];
      }
    }
  }

  lemma OccursTail(p: string, pat: string)
    requires p != [] && !Occurs(p, pat)
    ensures !Occurs(p[1..], pat)
  {
    forall k: nat | k <= |p[1..]| ensures !MatchAt(p[1..], k, pat) {
      assert !MatchAt(p, k + 1, pat);
      if k + |pat| <= |p[1..]| {
        assert p[k + 1..k + 1 + |pat|] == p[1..][k..k + |pat|];
      }
    }
  }

  /** Filling a template: the pieces between the placeholders are kept and
      every placeholder becomes the value. The pieces may hold anything,
      other placeholders included, as long as this placeholder does not
      occur in them. */
  lemma {:induction false} ReplaceAllJoin(pieces: seq<string>, name: string, value: string)
    requires |pieces| >= 1
    requires '{' !in name
    requires forall i :: 0 <= i < |pieces| ==> !Occurs(pieces[i], Placeholder(name))
    ensures ReplaceAll(Join(pieces, Placeholder(name)), Placeholder(name), value) == Join(pieces, value)
    decreases |pieces|
  {
    var pat := Placeholder(name);
    assert pat[0] == '{' && pat[1..] == name + "}";
    if |pieces| == 1 {
      ReplaceAllFreePrefix(pieces[0], "", pat, value);
      assert pieces[0] + "" == pieces[0];
    } else {
      var rest := Join(pieces[1..], pat);
      assert Join(pieces, pat) == pieces[0] + (pat + rest);
      ReplaceAllFreePrefix(pieces[0], pat + rest, pat, value);
      assert (pat + rest)[..|pat|] == pat && (pat + rest)[|pat|..] == rest;
      ReplaceAllJoin(pieces[1..], name, value);
      assert Join(pieces, value) == pieces[0] + (value + Join(pieces[1..], value));
    }
  }

  /** Text without `{` has no placeholder to fill. */
  lemma ReplaceAllBraceless(s: string, pat: string, rep: string)
    requires |pat| > 0 && pat[0] == '{' && '{' !in s
    ensures ReplaceAll(s, pat, rep) == s
  {
    ReplaceAllBracelessPrefix(s, "", pat, rep);
    assert s + "" == s;
  }

  /** The parameters applied in order, each replacing every occurrence of
      its placeholder in the text the earlier ones left. */
  function ApplyParams(text: string, params: seq<(string, string)>): (r: string)
    ensures params == [] ==> r == text
    ensures '{' !in text ==> r == text
    decreases |params|
  {
    if params == [] then text
    else
      var last := params[|params| - 1];
      var before := ApplyParams(text, params[..|params| - 1]);
      var r := ReplaceAll(before, Placeholder(last.0), last.1);
      assert '{' !in text ==> r == text by {
        if '{' !in text {
          ReplaceAllBraceless(before, Placeholder(last.0), last.1);
        }
      }
      r
  }

  /** One parameter fills its template. */
  lemma ApplyParamsFillsTemplate(pieces: seq<string>, name: string, value: string)
    requires |pieces| >= 1
    requires '{' !in name
    requires forall i :: 0 <= i < |pieces| ==> !Occurs(pieces[i], Placeholder(name))
    ensures ApplyParams(Join(pieces, Placeholder(name)), [(name, value)]) == Join(pieces, value)
  {
    var params := [(name, value)];
    assert params[..0] == [];
    ReplaceAllJoin(pieces, name, value);
  }

  /** A message template as the catalog writes it: literal text and
      `{name}` references. */
  datatype Segment = Literal(text: string) | Ref(name: string)

  /** The template's text, each reference bound in `env` replaced by its
      value and every other one left as its placeholder. */
  function Render(segs: seq<Segment>, env: map<string, string>): string
    decreases |segs|
  {
    if segs == [] then ""
    else
      SegmentText(segs[0], env) + Render(segs[1..], env)
  }

  function SegmentText(seg: Segment, env: map<string, string>): string
  {
    match seg
    case Literal(s) => s
    case Ref(n) => if n in env then env[n] else Placeholder(n)
  }

  /** A parameter name without braces. */
  predicate PlainName(n: string)
  {
    '{' !in n && '}' !in n
  }

  /** Literal text has no `{` and references have plain names. */
  predicate WellFormedTemplate(segs: seq<Segment>)
  {
    forall i :: 0 <= i < |segs| ==>
      (segs[i].Literal? ==> '{' !in segs[i].text) && (segs[i].Ref? ==> PlainName(segs[i].name))
  }

  predicate BraceFreeValues(env: map<string, string>)
  {
    forall n :: n in env ==> '{' !in env[n]
  }

  /** Two different plain names: one's placeholder is not the start of the
      other's. */
  lemma PlaceholderMismatch(r: string, n: string, rest: string)
    requires PlainName(r) && PlainName(n) && r != n
    ensures var s := Placeholder(r) + rest;
            |s| < |Placeholder(n)| || s[..|Placeholder(n)|] != Placeholder(n)
  {
    var s := Placeholder(r) + rest;
    var pn := Placeholder(n);
    if |s| >= |pn| {
      if |n| < |r| {
        assert s[..|pn|][|n| + 1] == r[|n|] != pn[|n| + 1];
      } else if |n| == |r| {
        assert s[..|pn|][1..|n| + 1] == r && pn[1..|n| + 1] == n;
      } else {
        assert s[..|pn|][|r| + 1] == '}' != pn[|r| + 1];
      }
    }
  }

  /** Replacing one unbound placeholder everywhere in a rendered template
      binds that name and changes nothing else. */
  lemma {:induction false} ReplaceRender(segs: seq<Segment>, env: map<string, string>, n: string, v: string)
    requires WellFormedTemplate(segs) && BraceFreeValues(env)
    requires PlainName(n) && n !in env && '{' !in v
    ensures ReplaceAll(Render(segs, env), Placeholder(n), v) == Render(segs, env[n := v])
    decreases |segs|
  {
    var pat := Placeholder(n);
    var env' := env[n := v];
    assert pat[0] == '{';
    if segs != [] {
      var rest := Render(segs[1..], env);
      var rest' := Render(segs[1..], env');
      assert WellFormedTemplate(segs[1..]) by {
        forall i | 0 <= i < |segs[1..]| ensures segs[1..][i] == segs[i + 1] { }
      }
      ReplaceRender(segs[1..], env, n, v);
      ReplaceSegment(segs[0], env, n, v, rest, rest');
    }
  }

  /** One segment of `ReplaceRender`, given the result for the rest. */
  lemma ReplaceSegment(seg: Segment, env: map<string, string>, n: string, v: string, rest: string, rest': string)
    requires (seg.Literal? ==> '{' !in seg.text) && (seg.Ref? ==> PlainName(seg.name))
    requires BraceFreeValues(env) && PlainName(n) && n !in env && '{' !in v
    requires ReplaceAll(rest, Placeholder(n), v) == rest'
    ensures ReplaceAll(SegmentText(seg, env) + rest, Placeholder(n), v) == SegmentText(seg, env[n := v]) + rest'
  {
    var pat := Placeholder(n);
    assert pat[0] == '{';
    match seg
    case Literal(s) =>
      ReplaceAllBracelessPrefix(s, rest, pat, v);
    case Ref(r) =>
      if r in env {
        assert SegmentText(seg, env[n := v]) == env[r];
        ReplaceAllBracelessPrefix(env[r], rest, pat, v);
      } else if r == n {
        ReplaceOwnPlaceholder(n, v, rest);
      } else {
        assert SegmentText(seg, env[n := v]) == Placeholder(r);
        ReplaceOtherPlaceholder(r, n, v, rest);
      }
  }

  /** A placeholder is replaced where it stands. */
  lemma ReplaceOwnPlaceholder(n: string, v: string, rest: string)
    ensures ReplaceAll(Placeholder(n) + rest, Placeholder(n), v) == v + ReplaceAll(rest, Placeholder(n), v)
  {
    var pat := Placeholder(n);
    var t := pat + rest;
    assert t[..|pat|] == pat && t[|pat|..] == rest;
  }

  /** Another name's placeholder is skipped over unchanged. */
  lemma ReplaceOtherPlaceholder(r: string, n: string, v: string, rest: string)
    requires PlainName(r) && PlainName(n) && r != n
    ensures ReplaceAll(Placeholder(r) + rest, Placeholder(n), v) == Placeholder(r) + ReplaceAll(rest, Placeholder(n), v)
  {
    var pat := Placeholder(n);
    var t := Placeholder(r) + rest;
    PlaceholderMismatch(r, n, rest);
    assert t[0] == '{' && t[1..] == (r + "}") + rest;
    assert pat[0] == '{';
    ReplaceAllBracelessPrefix(r + "}", rest, pat, v);
    assert [t[0]] + ((r + "}") + ReplaceAll(rest, pat, v)) == Placeholder(r) + ReplaceAll(rest, pat, v);
  }

  /** The parameters as an object: each name bound to its value. */
  function ParamEnv(params: seq<(string, string)>): (env: map<string, string>)
    ensures forall k :: k in env ==> exists i :: 0 <= i < |params| && params[i].0 == k
    decreases |params|
  {
    if params == [] then map[]
    else
      var last := params[|params| - 1];
      var init := ParamEnv(params[..|params| - 1]);
      init[last.0 := last.1]
  }

  /** Substituting any number of parameters with distinct plain names and
      values free of `{`: every reference to a parameter gets its value,
      whatever the order of references in the template and of the
      parameters, and references to other names stay as placeholders. */
  lemma {:induction false} ApplyParamsRender(segs: seq<Segment>, params: seq<(string, string)>)
    requires WellFormedTemplate(segs)
    requires forall i :: 0 <= i < |params| ==> PlainName(params[i].0) && '{' !in params[i].1
    requires forall i, j :: 0 <= i < j < |params| ==> params[i].0 != params[j].0
    ensures BraceFreeValues(ParamEnv(params))
    ensures ApplyParams(Render(segs, map[]), params) == Render(segs, ParamEnv(params))
    decreases |params|
  {
    if params != [] {
      var init := params[..|params| - 1];
      var last := params[|params| - 1];
      ApplyParamsRender(segs, init);
      assert last.0 !in ParamEnv(init) by {
        forall i | 0 <= i < |init| ensures init[i].0 != last.0 {
          assert init[i] == params[i];
        }
      }
      ReplaceRender(segs, ParamEnv(init), last.0, last.1);
    }
  }

  /** Two parameters in a three-piece template, e.g. `"{count} of
      {total}"`, supplied in either order. */
  lemma ApplyParamsTwoNames(p0: string, p1: string, p2: string, a: string, b: string, x: string, y: string)
    requires '{' !in p0 && '{' !in p1 && '{' !in p2
    requires PlainName(a) && PlainName(b) && a != b && '{' !in x && '{' !in y
    ensures ApplyParams(p0 + Placeholder(a) + p1 + Placeholder(b) + p2, [(a, x), (b, y)]) == p0 + x + p1 + y + p2
    ensures ApplyParams(p0 + Placeholder(a) + p1 + Placeholder(b) + p2, [(b, y), (a, x)]) == p0 + x + p1 + y + p2
  {
    var segs := [Literal(p0), Ref(a), Literal(p1), Ref(b), Literal(p2)];
    var env := map[a := x, b := y];
    TwoRefTemplate(p0, p1, p2, a, b, map[]);
    TwoRefTemplate(p0, p1, p2, a, b, env);
    FillTwo(segs, (a, x), (b, y), env);
    FillTwo(segs, (b, y), (a, x), env);
  }

  /** The template `p0{a}p1{b}p2` as segments. */
  lemma TwoRefTemplate(p0: string, p1: string, p2: string, a: string, b: string, env: map<string, string>)
    requires '{' !in p0 && '{' !in p1 && '{' !in p2 && PlainName(a) && PlainName(b)
    ensures var segs := [Literal(p0), Ref(a), Literal(p1), Ref(b), Literal(p2)];
            WellFormedTemplate(segs)
            && Render(segs, env) == p0 + SegmentText(Ref(a), env) + p1 + SegmentText(Ref(b), env) + p2
  {
    var segs := [Literal(p0), Ref(a), Literal(p1), Ref(b), Literal(p2)];
    RenderFive(segs, env);
  }

  lemma FillTwo(segs: seq<Segment>, first: (string, string), second: (string, string), env: map<string, string>)
    requires WellFormedTemplate(segs)
    requires PlainName(first.0) && PlainName(second.0) && first.0 != second.0
    requires '{' !in first.1 && '{' !in second.1
    requires env == map[first.0 := first.1, second.0 := second.1]
    ensures ApplyParams(Render(segs, map[]), [first, second]) == Render(segs, env)
  {
    var params := [first, second];
    assert params[..1] == [first] && [first][..0] == [];
    ApplyParamsRender(segs, params);
  }

  lemma RenderFive(segs: seq<Segment>, env: map<string, string>)
    requires |segs| == 5
    ensures Render(segs, env) == SegmentText(segs[0], env) + SegmentText(segs[1], env) + SegmentText(segs[2], env)
                                 + SegmentText(segs[3], env) + SegmentText(segs[4], env)
  {
    var t0, t1, t2, t3, t4 := SegmentText(segs[0], env), SegmentText(segs[1], env), SegmentText(segs[2], env),
                              SegmentText(segs[3], env), SegmentText(segs[4], env);
    assert Render(segs[4..], env) == t4 by {
      assert segs[4..][1..] == [];
      assert t4 + "" == t4;
    }
    assert Render(segs[3..], env) == t3 + t4 by { assert segs[3..][1..] == segs[4..]; }
    assert Render(segs[2..], env) == t2 + (t3 + t4) by { assert segs[2..][1..] == segs[3..]; }
    assert Render(segs[1..], env) == t1 + (t2 + (t3 + t4)) by { assert segs[1..][1..] == segs[2..]; }
    assert t0 + (t1 + (t2 + (t3 + t4))) == t0 + t1 + t2 + t3 + t4;
  }

  /** `translate` (and the function the `t` store holds): look the path up,
      then substitute the parameters, if any, in their order. */
  method Translate(keyPath: string, catalog: Node, params: Option<seq<(string, string)>>) returns (text: string)
    ensures text == ApplyParams(Lookup(keyPath, catalog), if params.Some? then params.value else [])
    ensures params.None? ==> text == Lookup(keyPath, catalog)
  {
    text := GetNestedTranslation(keyPath, catalog);
    if params.Some? {
      var ps := params.value;
      for i := 0 to |ps|
        invariant text == ApplyParams(Lookup(keyPath, catalog), ps[..i])
      {
        assert ps[..i + 1][..i] == ps[..i];
        text := ReplaceAll(text, Placeholder(ps[i].0), ps[i].1);
      }
      assert ps[..|ps|] == ps;
    }
  }

  /** `formatMessage`: the translated message, followed by `: details` when
      the details are a non-empty string. */
  function FormatMessage(messageKey: string, catalog: Node, details: Option<string>): (r: string)
    ensures StartsWith(r, Lookup(messageKey, catalog))
    ensures (details.None? || details.value == "") ==> r == Lookup(messageKey, catalog)
    ensures details.Some? && details.value != "" ==>
      |r| == |Lookup(messageKey, catalog)| + 2 + |details.value|
      && r[|Lookup(messageKey, catalog)|..] == ": " + details.value
  {
    var base := Lookup(messageKey, catalog);
    if details.Some? && details.value != "" then
      var r := base + ": " + details.value;
      assert r[..|base|] == base;
      assert r[|base|..] == ": " + details.value;
      r
    else base
  }

  // The language choice.

  /** The keys of `supportedLanguages`, in declaration order. */
  const SupportedLanguages: seq<string> := ["zh-CN", "en-US"]
  const DefaultLanguage: string := "zh-CN"
  const LanguageStorageKey: string := "screen-recorder-language"

  /** The properties every plain object inherits from `Object.prototype`. */
  const ObjectPrototypeNames: set<string> :=
    {"constructor", "hasOwnProperty", "isPrototypeOf", "propertyIsEnumerable", "toLocaleString",
     "toString", "valueOf", "__proto__", "__defineGetter__", "__defineSetter__",
     "__lookupGetter__", "__lookupSetter__"}

  /** `name in supportedLanguages`: own keys and inherited ones alike. */
  predicate InSupportedLanguagesObject(name: string)
  {
    name in SupportedLanguages || name in ObjectPrototypeNames
  }

  /** `loadSavedLanguage` as written: the stored value is accepted when it is
      non-empty and the `in` operator finds it on the object. */
  function LoadSavedLanguageAsWritten(browser: bool, saved: Option<string>): (r: string)
    ensures r == DefaultLanguage || (browser && saved == Some(r) && r != "")
  {
    if browser && saved.Some? && saved.value != "" && InSupportedLanguagesObject(saved.value) then saved.value
    else DefaultLanguage
  }

  /** A stored `toString` is taken as the language, and it is none. */
  lemma PrototypeNameLoadedAsLanguage()
    ensures LoadSavedLanguageAsWritten(true, Some("toString")) == "toString"
    ensures "toString" !in SupportedLanguages
  {
    assert "toString" in ObjectPrototypeNames;
  }

  /** `loadSavedLanguage` with the membership test on the supported codes
      only: the result is always a supported language, the stored one when
      it is supported, the default otherwise. */
  function LoadSavedLanguage(browser: bool, saved: Option<string>): (r: string)
    ensures r in SupportedLanguages
    ensures browser && saved.Some? && saved.value in SupportedLanguages ==> r == saved.value
    ensures !(browser && saved.Some? && saved.value in SupportedLanguages) ==> r == DefaultLanguage
  {
    if browser && saved.Some? && saved.value in SupportedLanguages then saved.value
    else DefaultLanguage
  }

  /** The two agree on every stored value that is not an inherited name. */
  lemma LoadSavedLanguageAgreesOffPrototype(browser: bool, saved: Option<string>)
    requires saved.None? || saved.value !in ObjectPrototypeNames
    ensures LoadSavedLanguageAsWritten(browser, saved) == LoadSavedLanguage(browser, saved)
  {
  }

  /** The part of a language tag before the first `-`. */
  function PrimarySubtag(lang: string): (r: string)
    ensures '-' !in r
    ensures StartsWith(lang, r)
    ensures r == lang || lang[|r|] == '-'
  {
    SplitHeadIsPrefix(lang, '-');
    Split(lang, '-')[0]
  }

  /** The start-up match against the browser's language: the tag itself if
      supported, else the first supported code starting with its primary
      subtag. */
  function BrowserMatch(lang: string): (r: Option<string>)
    ensures r.Some? ==> r.value in SupportedLanguages
    ensures lang in SupportedLanguages ==> r == Some(lang)
    ensures lang !in SupportedLanguages ==>
      (r.Some? <==> exists i :: 0 <= i < |SupportedLanguages| && StartsWith(SupportedLanguages[i], PrimarySubtag(lang)))
    ensures lang !in SupportedLanguages && r.Some? ==> StartsWith(r.value, PrimarySubtag(lang))
    ensures lang !in SupportedLanguages && r.Some? ==>
      exists i :: 0 <= i < |SupportedLanguages| && r.value == SupportedLanguages[i]
        && forall j :: 0 <= j < i ==> !StartsWith(SupportedLanguages[j], PrimarySubtag(lang))
  {
    if lang in SupportedLanguages then Some(lang)
    else
      var code := PrimarySubtag(lang);
      match FirstMatch(SupportedLanguages, l => StartsWith(l, code))
      case Some(i) => Some(SupportedLanguages[i])
      case None => None
  }

  lemma BrowserMatchRegionVariant()
    ensures BrowserMatch("en-GB") == Some("en-US")
    ensures BrowserMatch("zh-TW") == Some("zh-CN")
  {
    assert Split("en-GB", '-')[0] == "en";
    assert Split("zh-TW", '-')[0] == "zh";
    assert !StartsWith("zh-CN", "en");
  }

  lemma BrowserMatchUnsupported()
    ensures BrowserMatch("fr-FR") == None
  {
    assert Split("fr-FR", '-')[0] == "fr";
    assert !StartsWith("zh-CN", "fr") && !StartsWith("en-US", "fr");
  }

  /** The value stored under the language key, if any. */
  function StoredLanguage(storage: map<string, string>): Option<string>
  {
    if LanguageStorageKey in storage then Some(storage[LanguageStorageKey]) else None
  }

  /** The `currentLanguage` store and the local storage behind it. */
  class LanguageState {
    const browser: bool
    var storage: map<string, string>
    var current: string

    ghost predicate Valid()
      reads this
    {
      current in SupportedLanguages
    }

    /** Module initialisation: the saved language, then, when nothing (or an
        empty string) is saved, the browser's language if it matches. */
    constructor (browser: bool, storage: map<string, string>, browserLanguage: string)
      ensures Valid()
      ensures this.browser == browser
      ensures var saved := StoredLanguage(storage);
              var matched := BrowserMatch(browserLanguage);
              if browser && (saved.None? || saved.value == "") && matched.Some? then
                current == matched.value && this.storage == storage[LanguageStorageKey := matched.value]
              else
                current == LoadSavedLanguage(browser, saved) && this.storage == storage
    {
      this.browser := browser;
      this.storage := storage;
      current := LoadSavedLanguage(browser, StoredLanguage(storage));
      new;
      var saved := StoredLanguage(storage);
      if browser && (saved.None? || saved.value == "") {
        var matched := BrowserMatch(browserLanguage);
        if matched.Some? {
          SetLanguage(matched.value);
        }
      }
    }

    /** `setLanguage`: a supported code becomes current and, in a browser,
        is saved, so that loading after a restart gives it back. */
    method SetLanguage(language: string)
      requires Valid()
      modifies this
      ensures Valid()
      ensures language in SupportedLanguages ==>
        current == language
        && storage == (if browser then old(storage)[LanguageStorageKey := language] else old(storage))
      ensures language !in SupportedLanguages ==> current == old(current) && storage == old(storage)
      ensures browser && language in SupportedLanguages ==> LoadSavedLanguage(browser, StoredLanguage(storage)) == current
    {
      if language in SupportedLanguages {
        current := language;
        if browser {
          storage := storage[LanguageStorageKey := language];
        }
      }
    }
  }
}
