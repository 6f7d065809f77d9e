/**
  The `classnames` helper the components call: each string argument that is not empty is
  kept; each object argument contributes the keys whose value is true, in property order.
  The result is the list of class entries that `classNames` joins with single spaces.
 */
module Classnames {
  import JsObject
  import Strings

  /** One argument of `classNames(...)`: a class string, or an object literal of conditions. */
  datatype ClassArg = Token(name: string) | Conditions(pairs: seq<(string, bool)>)

  /** String arguments, in order. */
  function Tokens(names: seq<string>): (args: seq<ClassArg>)
    ensures |args| == |names|
    ensures forall i :: 0 <= i < |names| ==> args[i] == Token(names[i])
  {
    seq(|names|, i requires 0 <= i < |names| => Token(names[i]))
  }

  /** What one property contributes: its key when its value is true. */
  function When(p: (string, bool)): seq<string> {
    if p.1 then [p.0] else []
  }

  /** The keys of an object whose values are true, in property order. */
  function Selected(e: seq<(string, bool)>): seq<string> {
    if e == [] then [] else When(e[0]) + Selected(e[1..])
  }

  lemma SelectedFrom(e: seq<(string, bool)>, k: nat)
    requires k < |e|
    ensures Selected(e[k..]) == When(e[k]) + Selected(e[k + 1..])
  {
    assert e[k..][1..] == e[k + 1..];
  }

  lemma Selected2(a: (string, bool), b: (string, bool))
    ensures Selected([a, b]) == When(a) + When(b)
  {
    var e := [a, b];
    SelectedFrom(e, 0);
    SelectedFrom(e, 1);
    assert e[0..] == e;
  }

  lemma Selected3(a: (string, bool), b: (string, bool), c: (string, bool))
    ensures Selected([a, b, c]) == When(a) + When(b) + When(c)
  {
    var e := [a, b, c];
    SelectedFrom(e, 0);
    SelectedFrom(e, 1);
    SelectedFrom(e, 2);
    assert e[0..] == e;
  }

  lemma Selected5(a: (string, bool), b: (string, bool), c: (string, bool), d: (string, bool), e: (string, bool))
    ensures Selected([a, b, c, d, e]) == When(a) + When(b) + When(c) + When(d) + When(e)
  {
    assert [a, b, c, d, e] == [a, b, c] + [d, e];
    SelectedAppend([a, b, c], [d, e]);
    Selected3(a, b, c);
    Selected2(d, e);
  }

  /** What one argument contributes. */
  function ArgClasses(arg: ClassArg): seq<string> {
    match arg
    case Token(s) => if s == "" then [] else [s]
    case Conditions(pairs) => Selected(JsObject.Literal(pairs))
  }

  /** `classNames(...args)` as the list of entries it emits. */
  function ClassNames(args: seq<ClassArg>): seq<string> {
    if args == [] then [] else ArgClasses(args[0]) + ClassNames(args[1..])
  }

  /** The `className` attribute string `classNames(...args)` returns. */
  function ClassName(args: seq<ClassArg>): string {
    Strings.Join(ClassNames(args), " ")
  }

  lemma {:induction false} SelectedAppend(a: seq<(string, bool)>, b: seq<(string, bool)>)
    ensures Selected(a + b) == Selected(a) + Selected(b)
  {
    if a == [] {
      assert a + b == b;
    } else {
      assert (a + b)[0] == a[0];
      assert (a + b)[1..] == a[1..] + b;
      SelectedAppend(a[1..], b);
    }
  }

  /** A key is selected iff some pair gives it the value true. */
  lemma {:induction false} SelectedMembership(e: seq<(string, bool)>, k: string)
    ensures k in Selected(e) <==> exists i :: 0 <= i < |e| && e[i] == (k, true)
  {
    if e != [] {
      SelectedMembership(e[1..], k);
      assert k in When(e[0]) <==> e[0] == (k, true);
      if k in Selected(e[1..]) {
        var i :| 0 <= i < |e[1..]| && e[1..][i] == (k, true);
        assert e[i + 1] == (k, true);
      }
      if exists i :: 0 <= i < |e| && e[i] == (k, true) {
        var i :| 0 <= i < |e| && e[i] == (k, true);
        if i > 0 {
          assert e[1..][i - 1] == (k, true);
        }
      }
    }
  }

  lemma {:induction false} ClassNamesAppend(a: seq<ClassArg>, b: seq<ClassArg>)
    ensures ClassNames(a + b) == ClassNames(a) + ClassNames(b)
  {
    if a == [] {
      assert a + b == b;
    } else {
      assert (a + b)[0] == a[0];
      assert (a + b)[1..] == a[1..] + b;
      ClassNamesAppend(a[1..], b);
    }
  }

  /** Non-empty string arguments come out unchanged and in order. */
  lemma {:induction false} ClassNamesOfTokens(names: seq<string>)
    requires forall i :: 0 <= i < |names| ==> names[i] != ""
    ensures ClassNames(Tokens(names)) == names
  {
    if names != [] {
      assert Tokens(names)[1..] == Tokens(names[1..]);
      ClassNamesOfTokens(names[1..]);
    }
  }

  /** Fixed non-empty classes followed by one object literal of conditions. */
  lemma TokensThenLiteral(names: seq<string>, pairs: seq<(string, bool)>)
    requires forall i :: 0 <= i < |names| ==> names[i] != ""
    ensures ClassNames(Tokens(names) + [Conditions(pairs)]) == names + Selected(JsObject.Literal(pairs))
  {
    ClassNamesAppend(Tokens(names), [Conditions(pairs)]);
    ClassNamesOfTokens(names);
    assert ClassNames([Conditions(pairs)]) == Selected(JsObject.Literal(pairs)) + ClassNames([]);
  }

  /**
    The shape every component here uses: fixed non-empty classes followed by one object of
    conditions with distinct keys yields the fixed classes, then the true keys in order.
   */
  lemma TokensThenConditions(names: seq<string>, pairs: seq<(string, bool)>)
    requires forall i :: 0 <= i < |names| ==> names[i] != ""
    requires JsObject.DistinctKeys(pairs)
    ensures ClassNames(Tokens(names) + [Conditions(pairs)]) == names + Selected(pairs)
  {
    ClassNamesAppend(Tokens(names), [Conditions(pairs)]);
    ClassNamesOfTokens(names);
    JsObject.LiteralOfDistinct(pairs);
    assert ClassNames([Conditions(pairs)]) == Selected(pairs) + ClassNames([]);
  }
}
