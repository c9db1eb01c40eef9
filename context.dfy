/** The binding context of `context.go`: the object a template body sees
    while it runs. `Bind` records a value and answers with a placeholder
    token; `Concat` glues pre-rendered fragments together. */
module Binding {
  import opened GoStrings

  /** A value handed to `Bind`. Go's reflection test splits values into
      slices and arrays, which are expanded element by element, and
      everything else (strings, maps, structs, nil, ...), bound as one value. */
  datatype Value<T> = Scalar(x: T) | Seq(items: seq<Value<T>>)

  /** The scalar leaves of `v`, depth first, left to right: what binding `v`
      appends to the bindings. */
  ghost function Leaves<T>(v: Value<T>): seq<T>
    decreases v
  {
    match v
    case Scalar(x) => [x]
    case Seq(items) => LeavesOfSeq(items)
  }

  ghost function LeavesOfSeq<T>(vs: seq<Value<T>>): seq<T>
    decreases vs
  {
    if vs == [] then [] else LeavesOfSeq(vs[..|vs| - 1]) + Leaves(vs[|vs| - 1])
  }

  /** The token binding `v` returns when `n` values are already bound and
      `f` is the placeholder formatter. */
  ghost function Token<T>(v: Value<T>, n: nat, f: int -> string): string
    decreases v
  {
    match v
    case Scalar(_) => f(n + 1)
    case Seq(items) => Join(Tokens(items, n, f), ", ")
  }

  /** The tokens of binding the values of `vs` one after the other, starting
      with `n` values already bound. */
  ghost function Tokens<T>(vs: seq<Value<T>>, n: nat, f: int -> string): seq<string>
    decreases vs
  {
    if vs == [] then []
    else
      var init := vs[..|vs| - 1];
      Tokens(init, n, f) + [Token(vs[|vs| - 1], n + |LeavesOfSeq(init)|, f)]
  }

  /** The formatter's tokens for positions `first`, `first + 1`, ... (`k` of them). */
  ghost function Placeholders(first: int, k: nat, f: int -> string): seq<string>
  {
    seq(k, i => f(first + i))
  }

  /** A value with no empty slice anywhere inside it. */
  ghost predicate Dense<T>(v: Value<T>)
    decreases v
  {
    match v
    case Scalar(_) => true
    case Seq(items) => |items| > 0 && forall i :: 0 <= i < |items| ==> Dense(items[i])
  }

  /** The per-execution context. `args` and `placeholder` are fixed when the
      context is made; `bindings` only grows. */
  class Context<A, T> {
    const args: A
    var bindings: seq<T>
    const placeholder: int -> string

    /** A fresh context: nothing bound yet. */
    constructor (args: A, placeholder: int -> string)
      ensures this.args == args && this.placeholder == placeholder
      ensures bindings == []
    {
      this.args := args;
      this.placeholder := placeholder;
      bindings := [];
    }

    /** Binds `value`: its scalar leaves are appended in depth-first order and
        the token is the formatter's output for a scalar, or the element tokens
        joined with ", " for a slice. The formatter is called once per scalar,
        with the length of the bindings just after that scalar was appended:
        its 1-based position. */
    method Bind(value: Value<T>) returns (token: string)
      modifies this
      ensures bindings == old(bindings) + Leaves(value)
      ensures token == Token(value, |old(bindings)|, placeholder)
      ensures value.Scalar? ==> bindings == old(bindings) + [value.x] && token == placeholder(|bindings|)
      ensures value == Seq([]) ==> bindings == old(bindings) && token == ""
      decreases value, 1
    {
      match value {
        case Scalar(x) =>
          bindings := bindings + [x];
          token := placeholder(|bindings|);
        case Seq(items) =>
          var tokens := BindEach(items);
          token := Join(tokens, ", ");
      }
    }

    /** The loop of `Bind` over the elements of a slice: binds them one after
        the other and collects their tokens in order. */
    method BindEach(items: seq<Value<T>>) returns (tokens: seq<string>)
      modifies this
      ensures bindings == old(bindings) + LeavesOfSeq(items)
      ensures tokens == Tokens(items, |old(bindings)|, placeholder)
      decreases items, 0
    {
      ghost var n := |bindings|;
      tokens := [];
      var i := 0;
      while i < |items|
        invariant 0 <= i <= |items|
        invariant bindings == old(bindings) + LeavesOfSeq(items[..i])
        invariant tokens == Tokens(items[..i], n, placeholder)
      {
        var t := Bind(items[i]);
        assert bindings == old(bindings) + LeavesOfSeq(items[..i + 1])
            && tokens + [t] == Tokens(items[..i + 1], n, placeholder) by {
          assert items[..i + 1] == items[..i] + [items[i]];
          TokensSnoc(items[..i], items[i], n, placeholder);
          Associative(old(bindings), LeavesOfSeq(items[..i]), Leaves(items[i]));
        }
        tokens := tokens + [t];
        i := i + 1;
      }
      assert items[..|items|] == items;
    }

    /** Joins the fragments verbatim, with no separator; binds nothing. */
    function Concat(values: seq<string>): (r: string)
      ensures r == Concatenation(values)
    {
      JoinEmptySeparator(values);
      Join(values, "")
    }
  }

  /** Binding the same scalar twice on a fresh context gives two entries and
      two consecutive positions: there is no deduplication. */
  method BindTwice<A, T>(args: A, f: int -> string, x: T) returns (first: string, second: string, bound: seq<T>)
    ensures first == f(1) && second == f(2)
    ensures bound == [x, x]
  {
    var c := new Context(args, f);
    first := c.Bind(Scalar(x));
    second := c.Bind(Scalar(x));
    bound := c.bindings;
  }

  /** One more value at the end of a list: its leaves and its token come last. */
  lemma TokensSnoc<T>(vs: seq<Value<T>>, v: Value<T>, n: nat, f: int -> string)
    ensures LeavesOfSeq(vs + [v]) == LeavesOfSeq(vs) + Leaves(v)
    ensures Tokens(vs + [v], n, f) == Tokens(vs, n, f) + [Token(v, n + |LeavesOfSeq(vs)|, f)]
  {
    assert (vs + [v])[..|vs|] == vs;
  }

  /** Regrouping appends, stated once so that the proofs about growing
      sequences can name the step. */
  lemma Associative<T>(p: seq<T>, q: seq<T>, r: seq<T>)
    ensures (p + q) + r == p + (q + r)
  {
  }

  /** The leaves of a split list are the leaves of the two halves. */
  lemma {:induction false} LeavesOfSeqAppend<T>(a: seq<Value<T>>, b: seq<Value<T>>)
    ensures LeavesOfSeq(a + b) == LeavesOfSeq(a) + LeavesOfSeq(b)
    decreases |b|
  {
    if b == [] {
      assert a + b == a;
    } else {
      var b', x := b[..|b| - 1], b[|b| - 1];
      assert a + b == (a + b') + [x];
      assert (a + b)[..|a + b| - 1] == a + b';
      assert LeavesOfSeq(a + b) == LeavesOfSeq(a + b') + Leaves(x);
      assert LeavesOfSeq(b) == LeavesOfSeq(b') + Leaves(x);
      LeavesOfSeqAppend(a, b');
      Associative(LeavesOfSeq(a), LeavesOfSeq(b'), Leaves(x));
    }
  }

  /** A flat slice holding the given scalars. */
  function Scalars<T>(xs: seq<T>): seq<Value<T>>
  {
    seq(|xs|, i requires 0 <= i < |xs| => Scalar(xs[i]))
  }

  /** A flat slice of scalars binds exactly its elements, in order. */
  lemma {:induction false} FlatLeaves<T>(xs: seq<T>)
    ensures LeavesOfSeq(Scalars(xs)) == xs
  {
    if xs != [] {
      var init := xs[..|xs| - 1];
      var vs := Scalars(xs);
      assert vs[..|vs| - 1] == Scalars(init);
      FlatLeaves(init);
    }
  }

  /** Position bookkeeping: the formatter's tokens for two adjacent runs of
      positions are those of the combined run. */
  lemma PlaceholdersAppend(first: int, a: nat, b: nat, f: int -> string)
    ensures Placeholders(first, a, f) + Placeholders(first + a, b, f) == Placeholders(first, a + b, f)
  {
  }

  /** A value with no empty slice inside binds at least one scalar, and its
      token is the formatter's tokens for the consecutive positions n+1 ...
      n+k, joined with ", ": "$1, $2, $3" for a three-element slice. */
  lemma {:induction false} DenseToken<T>(v: Value<T>, n: nat, f: int -> string)
    requires Dense(v)
    ensures |Leaves(v)| > 0
    ensures Token(v, n, f) == Join(Placeholders(n + 1, |Leaves(v)|, f), ", ")
    decreases v, 1
  {
    match v
    case Scalar(_) =>
      assert Placeholders(n + 1, 1, f) == [f(n + 1)];
    case Seq(items) =>
      DenseTokens(items, n, f);
  }

  lemma {:induction false} DenseTokens<T>(vs: seq<Value<T>>, n: nat, f: int -> string)
    requires |vs| > 0 && forall i :: 0 <= i < |vs| ==> Dense(vs[i])
    ensures |LeavesOfSeq(vs)| > 0
    ensures Join(Tokens(vs, n, f), ", ") == Join(Placeholders(n + 1, |LeavesOfSeq(vs)|, f), ", ")
    decreases vs, 0
  {
    var init := vs[..|vs| - 1];
    var last := vs[|vs| - 1];
    var a := |LeavesOfSeq(init)|;
    var token := Token(last, n + a, f);
    assert Tokens(vs, n, f) == Tokens(init, n, f) + [token];
    assert |LeavesOfSeq(vs)| == a + |Leaves(last)|;
    DenseToken(last, n + a, f);
    var b := |Leaves(last)|;
    if init == [] {
      assert Tokens(vs, n, f) == [token];
    } else {
      assert forall i :: 0 <= i < |init| ==> Dense(init[i]) by {
        forall i | 0 <= i < |init| ensures Dense(init[i]) {
          assert init[i] == vs[i];
        }
      }
      DenseTokens(init, n, f);
      JoinRuns(Tokens(init, n, f), token, n + 1, a, b, f);
    }
  }

  /** Appending the token of the next run of positions to the tokens of a
      first run gives the token of the combined run. */
  lemma JoinRuns(tokens: seq<string>, token: string, first: int, a: nat, b: nat, f: int -> string)
    requires |tokens| > 0 && a > 0 && b > 0
    requires Join(tokens, ", ") == Join(Placeholders(first, a, f), ", ")
    requires token == Join(Placeholders(first + a, b, f), ", ")
    ensures Join(tokens + [token], ", ") == Join(Placeholders(first, a + b, f), ", ")
  {
    calc {
      Join(tokens + [token], ", ");
      { JoinAppend(tokens, [token], ", "); }
      Join(tokens, ", ") + ", " + token;
      { JoinAppend(Placeholders(first, a, f), Placeholders(first + a, b, f), ", "); }
      Join(Placeholders(first, a, f) + Placeholders(first + a, b, f), ", ");
      { PlaceholdersAppend(first, a, b, f); }
      Join(Placeholders(first, a + b, f), ", ");
    }
  }

  /** An empty slice nested inside a slice still contributes an empty token,
      so the joined result carries a separator with nothing before it:
      binding [[], [x]] on a fresh context gives ", " + f(1). */
  lemma EmptyInnerSlice<T>(x: T, f: int -> string)
    ensures Token(Seq([Seq([]), Seq([Scalar(x)])]), 0, f) == ", " + f(1)
    ensures Leaves(Seq([Seq([]), Seq([Scalar(x)])])) == [x]
  {
    var empty: Value<T> := Seq([]);
    var single: Value<T> := Seq([Scalar(x)]);
    var vs := [empty, single];
    assert [Scalar(x)][..0] == [];
    assert Tokens([Scalar(x)], 0, f) == [f(1)];
    assert Token(single, 0, f) == f(1);
    assert LeavesOfSeq([Scalar(x)]) == LeavesOfSeq([]) + Leaves(Scalar(x));
    assert Leaves(single) == [x];
    assert vs[..1] == [empty];
    assert [empty][..0] == [];
    assert Token(empty, 0, f) == "";
    assert LeavesOfSeq([empty]) == [];
    assert Tokens([empty], 0, f) == [""];
    assert Tokens(vs, 0, f) == ["", f(1)];
    assert LeavesOfSeq(vs) == [x];
    assert ["", f(1)][..1] == [""];
    assert Join(["", f(1)], ", ") == "" + ", " + f(1);
  }
}
