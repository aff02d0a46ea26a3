/**
 * The translation function `t` of the `useTranslations` hook: a dotted key
 * is walked through the loaded message tree, a key that does not end on a
 * string comes back unchanged, and `{{name}}` placeholders are filled in
 * parameter by parameter with `String.prototype.replace`.
 */
module Translations {
  import opened Wrappers
  import opened Strings

  /** A loaded locale file: strings, nested objects, and any other JSON value. */
  datatype Tree = Text(value: string) | Branch(children: map<string, Tree>) | OtherValue

  // ---------------------------------------------------------------- the key walk

  /** One step `value?.[k]`: a child of an object, or undefined. */
  function Child(node: Tree, k: string): Option<Tree>
  {
    if node.Branch? && k in node.children then Some(node.children[k]) else None
  }

  /** The value the walk reaches after the segments `keys`, or None once a segment is missing. */
  function Walk(node: Tree, keys: seq<string>): Option<Tree>
  {
    if keys == [] then Some(node)
    else match Child(node, keys[0])
      case None => None
      case Some(c) => Walk(c, keys[1..])
  }

  /** Walking `a + b` is walking `a` and then, if that arrived somewhere, walking `b` from there. */
  lemma {:induction false} WalkAppend(node: Tree, a: seq<string>, b: seq<string>)
    ensures Walk(node, a + b) == (match Walk(node, a) case None => None case Some(n) => Walk(n, b))
  {
    if a != [] {
      assert (a + b)[0] == a[0] && (a + b)[1..] == a[1..] + b;
      match Child(node, a[0])
      case None =>
        assert Walk(node, a) == None && Walk(node, a + b) == None;
      case Some(c) =>
        assert Walk(node, a) == Walk(c, a[1..]) && Walk(node, a + b) == Walk(c, a[1..] + b);
        WalkAppend(c, a[1..], b);
    } else {
      assert a + b == b;
    }
  }

  /** The walk descends exactly one level per segment. */
  lemma WalkStep(node: Tree, keys: seq<string>, k: string)
    ensures Walk(node, keys + [k]) == (match Walk(node, keys) case None => None case Some(n) => Child(n, k))
  {
    WalkAppend(node, keys, [k]);
  }

  // ---------------------------------------------------------------- replace

  /**
   * The replacement text `rep` after `String.prototype.replace` has expanded
   * its `$` patterns for a string search: `$$`, `$&` (the match), `` $` ``
   * (what precedes it) and `$'` (what follows it); any other `$` is literal.
   */
  function Expand(rep: string, matched: string, before: string, after: string): string
  {
    if rep == [] then []
    else if rep[0] == '$' && |rep| >= 2 && rep[1] in "$&`'" then
      var piece := if rep[1] == '$' then "$" else if rep[1] == '&' then matched else if rep[1] == '`' then before else after;
      piece + Expand(rep[2..], matched, before, after)
    else
      [rep[0]] + Expand(rep[1..], matched, before, after)
  }

  /** A replacement without `$` is inserted verbatim. */
  lemma {:induction false} ExpandVerbatim(rep: string, matched: string, before: string, after: string)
    requires '$' !in rep
    ensures Expand(rep, matched, before, after) == rep
  {
    if rep != [] {
      assert rep[0] != '$';
      assert forall j :: 0 <= j < |rep[1..]| ==> rep[1..][j] == rep[j + 1];
      ExpandVerbatim(rep[1..], matched, before, after);
    }
  }

  /**
   * `s.replace(p, rep)` with a string pattern: only the first occurrence of `p`
   * is replaced; without an occurrence the string is returned as it is.
   */
  function ReplaceFirst(s: string, p: string, rep: string): string
  {
    match IndexOf(s, p)
    case None => s
    case Some(i) =>
      var before, after := s[..i], s[i + |p|..];
      before + Expand(rep, p, before, after) + after
  }

  /** The placeholder a parameter named `name` fills. */
  function Placeholder(name: string): string
  {
    "{{" + name + "}}"
  }

  /** `Object.entries(params).reduce((str, [k, v]) => str.replace('{{k}}', v), s)`. */
  function SubstituteAll(s: string, params: seq<(string, string)>): string
    decreases |params|
  {
    if params == [] then s
    else SubstituteAll(ReplaceFirst(s, Placeholder(params[0].0), params[0].1), params[1..])
  }

  /** Parameters whose placeholders do not occur leave the string unchanged. */
  lemma {:induction false} SubstituteAllWithoutPlaceholders(s: string, params: seq<(string, string)>)
    requires forall k, j :: 0 <= k < |params| ==> !OccursAt(s, Placeholder(params[k].0), j)
    ensures SubstituteAll(s, params) == s
  {
    if params != [] {
      assert forall j :: !OccursAt(s, Placeholder(params[0].0), j);
      ReplaceFirstAbsent(s, Placeholder(params[0].0), params[0].1);
      assert forall k :: 1 <= k < |params| ==> params[1..][k - 1] == params[k];
      SubstituteAllWithoutPlaceholders(s, params[1..]);
    }
  }

  /**
   * A single parameter whose value holds no `$` replaces the first
   * occurrence of its placeholder by the value and keeps everything around it.
   */
  lemma SubstituteOne(s: string, name: string, value: string, i: nat)
    requires '$' !in value
    requires OccursAt(s, Placeholder(name), i)
    requires forall j :: 0 <= j < i ==> !OccursAt(s, Placeholder(name), j)
    ensures SubstituteAll(s, [(name, value)]) == s[..i] + value + s[i + |Placeholder(name)|..]
  {
    var p := Placeholder(name);
    SubstituteSingle(s, name, value);
    ReplaceFirstAt(s, p, value, i);
    ExpandVerbatim(value, p, s[..i], s[i + |p|..]);
  }

  /** With one parameter, substitution is one `replace`. */
  lemma SubstituteSingle(s: string, name: string, value: string)
    ensures SubstituteAll(s, [(name, value)]) == ReplaceFirst(s, Placeholder(name), value)
  {
    var params := [(name, value)];
    assert params[1..] == [];
  }

  /** `replace` rewrites the first occurrence only, and keeps what lies before and after it. */
  lemma ReplaceFirstAt(s: string, p: string, rep: string, i: nat)
    requires OccursAt(s, p, i)
    requires forall j :: 0 <= j < i ==> !OccursAt(s, p, j)
    ensures ReplaceFirst(s, p, rep) == s[..i] + Expand(rep, p, s[..i], s[i + |p|..]) + s[i + |p|..]
  {
    FirstOccurrence(s, p, i);
  }

  /** Without an occurrence of the pattern, `replace` returns the string as it is. */
  lemma ReplaceFirstAbsent(s: string, p: string, rep: string)
    requires forall j :: !OccursAt(s, p, j)
    ensures ReplaceFirst(s, p, rep) == s
  {
    assert IndexOf(s, p).None?;
  }

  // ---------------------------------------------------------------- t

  /** What `t(key, params)` returns for the loaded tree `messages`; `params` None is an absent argument. */
  function Lookup(messages: Tree, key: string, params: Option<seq<(string, string)>>): string
  {
    match Walk(messages, Split(key, '.'))
    case Some(Text(s)) => if params.Some? then SubstituteAll(s, params.value) else s
    case _ => key
  }

  /** `t`: split the key, walk one segment at a time until a segment is missing, then substitute. */
  method Translate(messages: Tree, key: string, params: Option<seq<(string, string)>>) returns (r: string)
    ensures r == Lookup(messages, key, params)
  {
    var keys := Split(key, '.');
    var value := Some(messages);
    var i := 0;
    while i < |keys| && value.Some?
      invariant 0 <= i <= |keys|
      invariant value == Walk(messages, keys[..i])
    {
      WalkStep(messages, keys[..i], keys[i]);
      assert keys[..i + 1] == keys[..i] + [keys[i]];
      value := Child(value.value, keys[i]);
      i := i + 1;
    }
    if i < |keys| {
      WalkAppend(messages, keys[..i], keys[i..]);
      assert keys[..i] + keys[i..] == keys;
    } else {
      assert keys[..i] == keys;
    }
    if value.Some? && value.value.Text? {
      r := value.value.value;
      if params.Some? {
        r := SubstituteAll(r, params.value);
      }
    } else {
      r := key;
    }
  }

  /** A key that does not lead to a string is echoed back, with or without parameters. */
  lemma MissingKeyEchoed(messages: Tree, key: string, params: Option<seq<(string, string)>>)
    requires !(Walk(messages, Split(key, '.')).Some? && Walk(messages, Split(key, '.')).value.Text?)
    ensures Lookup(messages, key, params) == key
  {
  }

  /** Without parameters the stored string comes back unchanged. */
  lemma StoredStringReturned(messages: Tree, key: string, s: string)
    requires Walk(messages, Split(key, '.')) == Some(Text(s))
    ensures Lookup(messages, key, None) == s
    ensures Lookup(messages, key, Some([])) == s
  {
  }

  /** A key without a dot names a top-level entry. */
  lemma {:induction false} UndottedKeyIsOneSegment(key: string)
    requires '.' !in key
    ensures Split(key, '.') == [key]
  {
    var parts := Split(key, '.');
    SplitJoin(key, '.');
    if |parts| > 1 {
      assert false;
    }
  }

  /** A dotted key walks the tree one level per segment: `a.b` is child `b` of child `a`. */
  lemma DottedKeyWalk(messages: Tree, a: string, b: string)
    requires '.' !in a && '.' !in b
    ensures Walk(messages, Split(a + "." + b, '.')) ==
      (match Child(messages, a) case None => None case Some(n) => Child(n, b))
  {
    SplitDotted(a, b);
    var ks: seq<string> := [a, b];
    assert ks[1..] == [b] && [b][1..] == [];
    match Child(messages, a)
    case None =>
    case Some(n) =>
      assert Walk(messages, ks) == Walk(n, [b]);
  }

  /** Splitting `a.b` on the dot gives its two segments. */
  lemma {:induction false} SplitDotted(a: string, b: string)
    requires '.' !in a && '.' !in b
    ensures Split(a + "." + b, '.') == [a, b]
  {
    if a == [] {
      assert a + "." + b == ['.'] + b;
      assert (['.'] + b)[1..] == b;
      UndottedKeyIsOneSegment(b);
    } else {
      var key := a + "." + b;
      assert key[0] == a[0] && key[1..] == a[1..] + "." + b;
      SplitDotted(a[1..], b);
      assert a[0] != '.';
      assert [a[0]] + a[1..] == a;
    }
  }
}
