/**
 * Placeholder substitution (lib/her/model/paths.rb, lines 87-90): every `:name`
 * token of the template is replaced by the value removed from the parameter map
 * under `name`, or failing that under `_name`; a token with neither raises a path
 * error that carries the template.
 */
module Substitution {
  import opened Wrappers
  import opened Template

  /** A parameter value as `||` sees it: `nil`, `false`, or anything else, which is
      inserted through its string form. */
  datatype Value = Nil | False | Text(s: string)

  predicate Truthy(v: Value) {
    v.Text?
  }

  /** Parameter names (without the leading colon) to values. */
  type Params = map<string, Value>

  /** `Her::Errors::PathError`: the placeholder that could not be filled and the template. */
  datatype PathError = PathError(name: string, template: string)

  /** The text the error is raised with. */
  function Message(e: PathError): string {
    "Missing :_" + e.name + " parameter to build the request path (" + e.template + ")."
  }

  predicate IsInfix(t: string, s: string) {
    exists i :: 0 <= i <= |s| && t <= s[i..]
  }

  /** The message names the missing parameter and quotes the full template. */
  lemma MessageMentionsNameAndTemplate(e: PathError)
    ensures IsInfix(e.name, Message(e))
    ensures IsInfix(e.template, Message(e))
  {
    var msg := Message(e);
    var head := "Missing :_" + e.name + " parameter to build the request path (";
    assert e.name <= msg[10..];
    assert e.template <= msg[|head|..];
  }

  /** `name` holds a value that `||` accepts. */
  predicate Has(name: string, m: Params) {
    name in m && Truthy(m[name])
  }

  /** The placeholder `:name` can be filled from `m`. */
  predicate Available(name: string, m: Params) {
    Has(name, m) || Has("_" + name, m)
  }

  /** The map keeps what it has not deleted. */
  predicate OnlyDeletes(m: Params, m': Params) {
    m'.Keys <= m.Keys && forall k :: k in m' ==> m'[k] == m[k]
  }

  datatype Taken = Taken(value: Option<string>, rest: Params)

  /** `parameters.delete(name) || parameters.delete("_name")`: the first delete always
      runs, so `name` is consumed even when it holds `nil` or `false`; the second runs
      only when the first gave nothing. */
  function Take(name: string, m: Params): (t: Taken)
    ensures OnlyDeletes(m, t.rest) && m.Keys - t.rest.Keys <= KeysOf(name)
    ensures name !in t.rest
    ensures t.value.Some? <==> Available(name, m)
    ensures Has(name, m) ==> t.value == Some(m[name].s) && t.rest == m - {name}
    ensures !Has(name, m) ==> t.rest == m - KeysOf(name)
    ensures !Has(name, m) && Has("_" + name, m) ==> t.value == Some(m["_" + name].s)
  {
    var first := m - {name};
    if Has(name, m) then Taken(Some(m[name].s), first)
    else if Has("_" + name, first) then Taken(Some(first["_" + name].s), first - {"_" + name})
    else Taken(None, first - {"_" + name})
  }

  /** The two deletes of `Take` on the map being consumed: `rest` is `params` after them. */
  method Delete(name: string, params: Params) returns (value: Option<string>, rest: Params)
    ensures Taken(value, rest) == Take(name, params)
  {
    value := None;
    if name in params && params[name].Text? {
      value := Some(params[name].s);
    }
    rest := params - {name};
    if value.None? {
      var alt := "_" + name;
      if alt in rest && rest[alt].Text? {
        value := Some(rest[alt].s);
      }
      rest := rest - {alt};
    }
  }

  /** The outcome of one substitution: the path or the error, and what is left of the map. */
  datatype Expansion = Expansion(path: Result<string, PathError>, rest: Params)

  function Prepend(s: string, x: Expansion): Expansion {
    Expansion(if x.path.Success? then Success(s + x.path.value) else x.path, x.rest)
  }

  /** The substitution of the scan `ps` of `template`, left to right, on the map `m`. */
  function Expand(template: string, ps: seq<Piece>, m: Params): (x: Expansion)
    ensures OnlyDeletes(m, x.rest)
    ensures forall k :: k in m && k !in Referenced(ps) ==> k in x.rest
    ensures x.path.Failure? ==> x.path.error.template == template && x.path.error.name in Names(ps)
  {
    if ps == [] then Expansion(Success([]), m)
    else match ps[0]
      case Lit(c) => Prepend([c], Expand(template, ps[1..], m))
      case Token(name) =>
        var t := Take(name, m);
        if t.value.None? then Expansion(Failure(PathError(name, template)), t.rest)
        else Prepend(t.value.value, Expand(template, ps[1..], t.rest))
  }

  /** The whole substitution of a template. */
  function Substituted(template: string, m: Params): Expansion {
    Expand(template, Pieces(template), m)
  }

  lemma PrependNothing(x: Expansion)
    ensures Prepend([], x) == x
  {
    if x.path.Success? {
      assert [] + x.path.value == x.path.value;
    }
  }

  lemma PrependPrepend(a: string, b: string, x: Expansion)
    ensures Prepend(a, Prepend(b, x)) == Prepend(a + b, x)
  {
    if x.path.Success? {
      assert a + (b + x.path.value) == (a + b) + x.path.value;
    }
  }

  /** The scan of text that starts with the token `name`, substituted one step. */
  lemma ExpandAtToken(template: string, s: string, name: string, next: string, m: Params)
    requires StartsToken(s) && name == WordPrefix(s[1..]) && next == s[1 + |name|..]
    ensures var t := Take(name, m);
      Expand(template, Pieces(s), m)
        == if t.value.None? then Expansion(Failure(PathError(name, template)), t.rest)
           else Prepend(t.value.value, Expand(template, Pieces(next), t.rest))
  {
    PiecesStep(s);
    var ps := Pieces(s);
    assert ps[1..] == Pieces(next);
  }

  /** The scan of text that does not start with a token, substituted one step. */
  lemma ExpandAtLiteral(template: string, s: string, m: Params)
    requires s != [] && !StartsToken(s)
    ensures Expand(template, Pieces(s), m) == Prepend([s[0]], Expand(template, Pieces(s[1..]), m))
  {
    PiecesStep(s);
    var ps := Pieces(s);
    assert ps[1..] == Pieces(s[1..]);
  }

  /** `path.gsub(/:([\w_]+)/) { ... }`: copies the template, replacing each token by the
      value it removes from the map, and stops at the first token it cannot fill. */
  method Substitute(template: string, params: Params) returns (path: Result<string, PathError>, rest: Params)
    ensures Expansion(path, rest) == Substituted(template, params)
  {
    var out := "";
    var i := 0;
    rest := params;
    ghost var goal := Substituted(template, params);
    assert template[i..] == template;
    PrependNothing(goal);
    while i < |template|
      invariant 0 <= i <= |template|
      invariant goal == Prepend(out, Expand(template, Pieces(template[i..]), rest))
    {
      var tail := template[i..];
      if StartsToken(tail) {
        var name := WordPrefix(template[i + 1..]);
        assert tail[1..] == template[i + 1..];
        var next := template[i + 1 + |name|..];
        assert tail[1 + |name|..] == next;
        ExpandAtToken(template, tail, name, next, rest);
        var value;
        value, rest := Delete(name, rest);
        if value.None? {
          return Failure(PathError(name, template)), rest;
        }
        ghost var later := Expand(template, Pieces(next), rest);
        assert goal == Prepend(out, Prepend(value.value, later));
        PrependPrepend(out, value.value, later);
        out := out + value.value;
        i := i + 1 + |name|;
        assert template[i..] == next;
      } else {
        var next := template[i + 1..];
        assert tail[1..] == next;
        ExpandAtLiteral(template, tail, rest);
        PrependPrepend(out, [template[i]], Expand(template, Pieces(next), rest));
        out := out + [template[i]];
        i := i + 1;
        assert template[i..] == next;
      }
    }
    assert template[i..] == [] && out + [] == out;
    path := Success(out);
  }

  // ----- properties of the substitution -----

  lemma {:induction false} ExpandLiterals(template: string, ps: seq<Piece>, m: Params)
    requires Names(ps) == []
    ensures Expand(template, ps, m) == Expansion(Success(Unparse(ps)), m)
  {
    if ps != [] {
      assert ps[0].Lit?;
      ExpandLiterals(template, ps[1..], m);
    }
  }

  /** A template without placeholders comes back unchanged, whatever the parameters:
      nothing is consumed and nothing is raised. */
  lemma LiteralTemplateUnchanged(template: string, m: Params)
    requires HasNoTokens(template)
    ensures Substituted(template, m) == Expansion(Success(template), m)
  {
    NoTokensIffAllLiteral(template);
    ExpandLiterals(template, Pieces(template), m);
    UnparsePieces(template);
  }

  /** A placeholder that can be filled from neither of its keys makes the whole
      substitution fail: no partial path is returned. Deleting never makes a key
      available, so earlier tokens cannot rescue it. */
  lemma {:induction false} MissingParameterFails(template: string, ps: seq<Piece>, m: Params, name: string)
    requires name in Names(ps) && !Available(name, m)
    ensures Expand(template, ps, m).path.Failure?
  {
    match ps[0]
    case Lit(c) =>
      MissingParameterFails(template, ps[1..], m, name);
    case Token(n) =>
      var t := Take(n, m);
      if n != name && t.value.Some? {
        assert !Available(name, t.rest);
        MissingParameterFails(template, ps[1..], t.rest, name);
      }
  }

  /** A template needs no parameters at all exactly when it has no placeholder. */
  lemma NoParametersNeededIff(template: string)
    ensures Substituted(template, map[]).path.Success? <==> HasNoTokens(template)
  {
    NoTokensIffAllLiteral(template);
    var names := Names(Pieces(template));
    if HasNoTokens(template) {
      LiteralTemplateUnchanged(template, map[]);
    } else {
      assert names[0] in names;
      MissingParameterFails(template, Pieces(template), map[], names[0]);
    }
  }

  lemma TakeIgnoresExtra(name: string, m: Params, extra: Params)
    requires extra.Keys !! KeysOf(name)
    ensures Take(name, m + extra) == Taken(Take(name, m).value, Take(name, m).rest + extra)
  {
    var t, t' := Take(name, m), Take(name, m + extra);
    assert Has(name, m + extra) == Has(name, m);
    assert Has("_" + name, m + extra) == Has("_" + name, m);
    assert t'.rest == t.rest + extra;
  }

  /** Parameters that no placeholder refers to change nothing: the same path or the same
      error, and they are all still in the map afterwards. */
  lemma {:induction false} ExtraParametersIgnored(template: string, ps: seq<Piece>, m: Params, extra: Params)
    requires extra.Keys !! Referenced(ps)
    ensures Expand(template, ps, m + extra)
         == Expansion(Expand(template, ps, m).path, Expand(template, ps, m).rest + extra)
  {
    if ps != [] {
      match ps[0]
      case Lit(c) =>
        ExtraParametersIgnored(template, ps[1..], m, extra);
      case Token(n) =>
        TakeIgnoresExtra(n, m, extra);
        var t := Take(n, m);
        if t.value.Some? {
          ExtraParametersIgnored(template, ps[1..], t.rest, extra);
        }
    }
  }

  /** Every placeholder of the scan can be filled from `m`. */
  predicate AllAvailable(ps: seq<Piece>, m: Params) {
    forall n :: n in Names(ps) ==> Available(n, m)
  }

  /** The value a placeholder receives when it is the only one using its keys. */
  function Choice(name: string, m: Params): string
    requires Available(name, m)
  {
    if Has(name, m) then m[name].s else m["_" + name].s
  }

  /** The reference reading of a template: each literal character kept, each
      placeholder replaced by its `Choice` from the original map. */
  function Fill(ps: seq<Piece>, m: Params): string
    requires AllAvailable(ps, m)
  {
    if ps == [] then []
    else (match ps[0] case Lit(c) => [c] case Token(n) => Choice(n, m)) + Fill(ps[1..], m)
  }

  /** No two placeholders of the scan share a parameter key. */
  predicate Independent(ps: seq<Piece>) {
    forall i, j :: 0 <= i < j < |ps| && ps[i].Token? && ps[j].Token? ==>
      KeysOf(ps[i].name) !! KeysOf(ps[j].name)
  }

  /** `m` and `m'` hold the same entries for the keys in `keys`. */
  predicate AgreeOn(keys: set<string>, m: Params, m': Params) {
    forall k :: k in keys ==> (k in m <==> k in m') && (k in m ==> m[k] == m'[k])
  }

  lemma {:induction false} ReferencedByNames(ps: seq<Piece>, k: string)
    requires k in Referenced(ps)
    ensures exists j :: 0 <= j < |ps| && ps[j].Token? && k in KeysOf(ps[j].name)
  {
    if ps[0].Token? && k in KeysOf(ps[0].name) {
      assert ps[0].Token? && k in KeysOf(ps[0].name);
    } else {
      ReferencedByNames(ps[1..], k);
      var j :| 0 <= j < |ps[1..]| && ps[1..][j].Token? && k in KeysOf(ps[1..][j].name);
      assert ps[j + 1] == ps[1..][j];
    }
  }

  lemma {:induction false} NamesAreReferenced(ps: seq<Piece>, n: string)
    requires n in Names(ps)
    ensures KeysOf(n) <= Referenced(ps)
  {
    if !(ps[0].Token? && ps[0].name == n) {
      NamesAreReferenced(ps[1..], n);
    }
  }

  lemma {:induction false} FillAgrees(ps: seq<Piece>, m: Params, m': Params)
    requires AllAvailable(ps, m) && AgreeOn(Referenced(ps), m, m')
    ensures AllAvailable(ps, m') && Fill(ps, m) == Fill(ps, m')
  {
    forall n | n in Names(ps) ensures Available(n, m') && Choice(n, m) == Choice(n, m') {
      NamesAreReferenced(ps, n);
    }
    if ps != [] {
      assert Referenced(ps[1..]) <= Referenced(ps);
      assert forall n :: n in Names(ps[1..]) ==> n in Names(ps);
      FillAgrees(ps[1..], m, m');
    }
  }

  /** The keys a scan deletes when each placeholder is the only one using its keys:
      `name` always, and `_name` too when `name` gave nothing. */
  function Consumed(ps: seq<Piece>, m: Params): (c: set<string>)
    ensures c <= Referenced(ps)
    ensures forall n :: n in Names(ps) ==> n in c
  {
    if ps == [] then {}
    else
      (match ps[0]
       case Lit(_) => {}
       case Token(n) => if Has(n, m) then {n} else KeysOf(n))
      + Consumed(ps[1..], m)
  }

  lemma {:induction false} ConsumedAgrees(ps: seq<Piece>, m: Params, m': Params)
    requires AgreeOn(Referenced(ps), m, m')
    ensures Consumed(ps, m) == Consumed(ps, m')
  {
    if ps != [] {
      assert Referenced(ps[1..]) <= Referenced(ps);
      ConsumedAgrees(ps[1..], m, m');
    }
  }

  /** Behind the first piece of an independent scan: still independent, and no later
      placeholder uses a key of the first one. */
  lemma IndependentTail(ps: seq<Piece>)
    requires ps != [] && Independent(ps)
    ensures Independent(ps[1..])
    ensures forall n :: n in Names(ps[1..]) ==> n in Names(ps)
    ensures ps[0].Token? ==> KeysOf(ps[0].name) !! Referenced(ps[1..])
  {
    var tail := ps[1..];
    forall i, j | 0 <= i < j < |tail| && tail[i].Token? && tail[j].Token?
      ensures KeysOf(tail[i].name) !! KeysOf(tail[j].name)
    {
      assert tail[i] == ps[i + 1] && tail[j] == ps[j + 1];
    }
    if ps[0].Token? {
      forall k | k in Referenced(tail) ensures k !in KeysOf(ps[0].name) {
        ReferencedByNames(tail, k);
        var j :| 0 <= j < |tail| && tail[j].Token? && k in KeysOf(tail[j].name);
        assert ps[j + 1] == tail[j];
      }
    }
  }

  /** Taking `name` leaves every key outside `KeysOf(name)` as it was. */
  lemma TakeAgrees(name: string, m: Params, keys: set<string>)
    requires keys !! KeysOf(name)
    ensures AgreeOn(keys, m, Take(name, m).rest)
  {
  }

  /** When no two placeholders share a key and every one can be filled, the result is
      the template with each `:name` replaced by the value under `name`, or under
      `_name` when `name` is absent, `nil` or `false`. */
  lemma {:induction false} IndependentPlaceholdersFill(template: string, ps: seq<Piece>, m: Params)
    requires Independent(ps) && AllAvailable(ps, m)
    ensures Expand(template, ps, m).path == Success(Fill(ps, m))
  {
    if ps != [] {
      var tail := ps[1..];
      IndependentTail(ps);
      match ps[0]
      case Lit(c) =>
        IndependentPlaceholdersFill(template, tail, m);
      case Token(n) =>
        var t := Take(n, m);
        assert n in Names(ps);
        TakeAgrees(n, m, Referenced(tail));
        FillAgrees(tail, m, t.rest);
        IndependentPlaceholdersFill(template, tail, t.rest);
    }
  }

  /** Under the same conditions, what is left of the map is the original without the
      consumed keys (`name`, and `_name` when `name` gave nothing), so no placeholder
      name survives in it and every other key does. */
  lemma {:induction false} IndependentPlaceholdersConsume(template: string, ps: seq<Piece>, m: Params)
    requires Independent(ps) && AllAvailable(ps, m)
    ensures Expand(template, ps, m).rest == m - Consumed(ps, m)
    ensures forall n :: n in Names(ps) ==> n !in Expand(template, ps, m).rest
  {
    if ps != [] {
      var tail := ps[1..];
      IndependentTail(ps);
      match ps[0]
      case Lit(c) =>
        IndependentPlaceholdersConsume(template, tail, m);
      case Token(n) =>
        var t := Take(n, m);
        assert n in Names(ps);
        TakeAgrees(n, m, Referenced(tail));
        FillAgrees(tail, m, t.rest);
        ConsumedAgrees(tail, m, t.rest);
        IndependentPlaceholdersConsume(template, tail, t.rest);
        var k := if Has(n, m) then {n} else KeysOf(n);
        assert t.rest == m - k;
        assert (m - k) - Consumed(tail, m) == m - (k + Consumed(tail, m));
    }
  }

  /** A placeholder repeated in one template (`:id:id`, `:id/:id`): the first occurrence
      consumes one key, so the second succeeds only if both `name` and `_name` held
      values, and then it receives the value of `_name`. */
  lemma RepeatedPlaceholder(template: string, name: string, sep: seq<Piece>, m: Params)
    requires Names(sep) == []
    ensures var x := Expand(template, [Token(name)] + sep + [Token(name)], m);
      && (x.path.Success? <==> Has(name, m) && Has("_" + name, m))
      && (x.path.Success? ==> x.path.value == m[name].s + Unparse(sep) + m["_" + name].s)
  {
    var ps := [Token(name)] + sep + [Token(name)];
    var t := Take(name, m);
    assert ps[1..] == sep + [Token(name)];
    if t.value.Some? {
      ExpandSeparator(template, sep, [Token(name)], t.rest);
      var t2 := Take(name, t.rest);
      assert [Token(name)][1..] == [];
      if Has(name, m) {
        assert t2.value.Some? <==> Has("_" + name, m);
      } else {
        assert t.rest == m - KeysOf(name);
        assert !Available(name, t.rest);
      }
    }
  }

  lemma {:induction false} ExpandSeparator(template: string, sep: seq<Piece>, after: seq<Piece>, m: Params)
    requires Names(sep) == []
    ensures Expand(template, sep + after, m) == Prepend(Unparse(sep), Expand(template, after, m))
  {
    if sep == [] {
      assert sep + after == after;
      PrependNothing(Expand(template, after, m));
    } else {
      assert sep[0].Lit?;
      assert (sep + after)[1..] == sep[1..] + after;
      ExpandSeparator(template, sep[1..], after, m);
      PrependPrepend([sep[0].c], Unparse(sep[1..]), Expand(template, after, m));
    }
  }

  lemma PiecesOfSinglePlaceholder(lit: string, name: string, after: string)
    requires NoColon(lit) && NoColon(after)
    requires |name| > 0 && forall i :: 0 <= i < |name| ==> IsWordChar(name[i])
    requires after == [] || !IsWordChar(after[0])
    ensures Pieces(lit + ":" + name + after) == Literals(lit) + ([Token(name)] + Literals(after))
  {
    var w := ":" + name + after;
    assert lit + ":" + name + after == lit + w;
    PiecesOfPlainText(lit, w);
    PiecesOfPlaceholder(name, after);
    PiecesOfColonFree(after);
  }

  /** A template with one placeholder between colon-free texts: the texts are kept and
      the placeholder takes its value from `name` or `_name`, or the build fails
      naming it and the template. */
  lemma SinglePlaceholder(lit: string, name: string, after: string, m: Params)
    requires NoColon(lit) && NoColon(after)
    requires |name| > 0 && forall i :: 0 <= i < |name| ==> IsWordChar(name[i])
    requires after == [] || !IsWordChar(after[0])
    ensures var t := lit + ":" + name + after;
      var taken := Take(name, m);
      Substituted(t, m)
        == if taken.value.Some? then Expansion(Success(lit + taken.value.value + after), taken.rest)
           else Expansion(Failure(PathError(name, t)), taken.rest)
  {
    var t := lit + ":" + name + after;
    var tail := [Token(name)] + Literals(after);
    PiecesOfSinglePlaceholder(lit, name, after);
    ExpandSeparator(t, Literals(lit), tail, m);
    assert tail[1..] == Literals(after);
    var taken := Take(name, m);
    if taken.value.Some? {
      ExpandLiterals(t, Literals(after), taken.rest);
      assert lit + (taken.value.value + after) == lit + taken.value.value + after;
    }
  }
}
