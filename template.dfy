/** The template wrapper of `template.go`. The `text/template` engine it
    drives is foreign code; here a compiled template is a table from template
    names to bodies, and a body, given the caller's data, is the script of
    actions the engine performs (write literal text, call `.Bind`, call
    `.Concat`) followed either by completion or by an evaluation error. */
module Templates {
  import opened GoStrings
  import opened Binding

  datatype Option<T> = None | Some(value: T)

  /** One step of a template body as the engine runs it. */
  datatype Action<T> =
    | Text(text: string)
    | CallBind(value: Value<T>)
    | CallConcat(parts: seq<string>)

  /** One evaluation of a body: the actions performed, then the error that
      stopped it, if any. */
  datatype Run<T, E> = Run(actions: seq<Action<T>>, failure: Option<E>)

  /** The engine's errors: no body under that name, or a failure while
      evaluating (a bad field access, a formatter failure, ...). */
  datatype ExecError<E> = NoSuchTemplate(name: string) | EvalError(cause: E)

  /** A parsed template set: its named bodies. */
  type Bodies<!A, T, E> = map<string, A -> Run<T, E>>

  /** What one `Execute` call hands back to its caller. */
  datatype Outcome<T, E> = Outcome(text: string, bindings: seq<T>, err: Option<ExecError<E>>)

  /** The values an action appends to the bindings. */
  ghost function ActionLeaves<T>(a: Action<T>): seq<T>
  {
    match a
    case CallBind(v) => Leaves(v)
    case _ => []
  }

  /** The values a script appends to the bindings, in order. */
  ghost function Bound<T>(actions: seq<Action<T>>): seq<T>
  {
    if actions == [] then []
    else Bound(actions[..|actions| - 1]) + ActionLeaves(actions[|actions| - 1])
  }

  /** The text an action writes when `n` values are already bound. */
  ghost function ActionText<T>(a: Action<T>, n: nat, f: int -> string): string
  {
    match a
    case Text(s) => s
    case CallBind(v) => Token(v, n, f)
    case CallConcat(parts) => Concatenation(parts)
  }

  /** The text a script writes, starting with `n` values already bound. */
  ghost function Output<T>(actions: seq<Action<T>>, n: nat, f: int -> string): string
  {
    if actions == [] then ""
    else
      var init := actions[..|actions| - 1];
      Output(init, n, f) + ActionText(actions[|actions| - 1], n + |Bound(init)|, f)
  }

  /** The values of the `.Bind` calls of a script, in call order. */
  ghost function BindArguments<T>(actions: seq<Action<T>>): seq<Value<T>>
  {
    if actions == [] then []
    else
      var last := actions[|actions| - 1];
      BindArguments(actions[..|actions| - 1]) + (if last.CallBind? then [last.value] else [])
  }

  /** What `Execute(name, data)` returns, given the template set and the
      formatter: on any error, empty text, no bindings and the error; on
      success, the trimmed output and the values bound while producing it,
      starting from an empty context. */
  ghost function Expected<A, T, E>(tpl: Bodies<A, T, E>, f: int -> string, name: string, data: A): Outcome<T, E>
  {
    if name !in tpl then Outcome("", [], Some(NoSuchTemplate(name)))
    else
      var run := tpl[name](data);
      if run.failure.Some? then Outcome("", [], Some(EvalError(run.failure.value)))
      else Outcome(TrimSpace(Output(run.actions, 0, f)), Bound(run.actions), None)
  }

  /** One action against `ctx`: `.Bind` and `.Concat` go to the context,
      literal text is written as it is. */
  method Perform<A, T>(a: Action<T>, ctx: Context<A, T>) returns (piece: string)
    modifies ctx
    ensures ctx.bindings == old(ctx.bindings) + ActionLeaves(a)
    ensures piece == ActionText(a, |old(ctx.bindings)|, ctx.placeholder)
  {
    match a {
      case Text(s) => piece := s;
      case CallBind(v) => piece := ctx.Bind(v);
      case CallConcat(parts) => piece := ctx.Concat(parts);
    }
  }

  /** The actions of a body, one after the other, against `ctx`; the text
      they write is collected in order. */
  method PerformAll<A, T>(actions: seq<Action<T>>, ctx: Context<A, T>) returns (output: string)
    modifies ctx
    ensures ctx.bindings == old(ctx.bindings) + Bound(actions)
    ensures output == Output(actions, |old(ctx.bindings)|, ctx.placeholder)
  {
    ghost var start := ctx.bindings;
    output := "";
    var i := 0;
    while i < |actions|
      invariant 0 <= i <= |actions|
      invariant ctx.bindings == start + Bound(actions[..i])
      invariant output == Output(actions[..i], |start|, ctx.placeholder)
    {
      var piece := Perform(actions[i], ctx);
      ScriptStep(actions, i, start, ctx.placeholder, output, piece, ctx.bindings);
      output := output + piece;
      i := i + 1;
    }
    assert actions[..|actions|] == actions;
  }

  /** One turn of `PerformAll`'s loop: the text and the values of action `i`
      extend those of the actions before it. */
  lemma ScriptStep<T>(actions: seq<Action<T>>, i: nat, start: seq<T>, f: int -> string,
                      output: string, piece: string, bindings: seq<T>)
    requires i < |actions|
    requires output == Output(actions[..i], |start|, f)
    requires piece == ActionText(actions[i], |start + Bound(actions[..i])|, f)
    requires bindings == start + Bound(actions[..i]) + ActionLeaves(actions[i])
    ensures bindings == start + Bound(actions[..i + 1])
    ensures output + piece == Output(actions[..i + 1], |start|, f)
  {
    var prefix, a := actions[..i], actions[i];
    assert actions[..i + 1] == prefix + [a];
    assert bindings == start + Bound(prefix + [a]) by {
      BoundSnoc(prefix, a);
      Associative(start, Bound(prefix), ActionLeaves(a));
    }
    assert output + piece == Output(prefix + [a], |start|, f) by {
      OutputSnoc(prefix, a, |start|, f);
      assert |start + Bound(prefix)| == |start| + |Bound(prefix)|;
    }
  }

  /** The engine's `ExecuteTemplate`: looks the body up, performs its actions
      against `ctx` while collecting the written text, then reports the
      body's error, if any. Nothing is written for an unknown name. */
  method ExecuteTemplate<A, T, E>(tpl: Bodies<A, T, E>, name: string, ctx: Context<A, T>)
    returns (output: string, err: Option<ExecError<E>>)
    modifies ctx
    ensures name !in tpl ==> output == "" && err == Some(NoSuchTemplate(name)) && ctx.bindings == old(ctx.bindings)
    ensures name in tpl ==>
      var run := tpl[name](ctx.args);
      && output == Output(run.actions, |old(ctx.bindings)|, ctx.placeholder)
      && ctx.bindings == old(ctx.bindings) + Bound(run.actions)
      && err == (if run.failure.Some? then Some(EvalError(run.failure.value)) else None)
  {
    if name !in tpl {
      return "", Some(NoSuchTemplate(name));
    }
    var run := tpl[name](ctx.args);
    output := PerformAll(run.actions, ctx);
    err := if run.failure.Some? then Some(EvalError(run.failure.value)) else None;
  }

  /** The wrapper: a parsed template set and the placeholder formatter, both
      fixed at construction and shared by every `Execute` call. */
  class Template<A, T, E> {
    const tpl: Bodies<A, T, E>
    const placeholder: int -> string

    /** `New` keeps the template set and the formatter as given. */
    constructor New(tpl: Bodies<A, T, E>, placeholder: int -> string)
      ensures this.tpl == tpl && this.placeholder == placeholder
    {
      this.tpl := tpl;
      this.placeholder := placeholder;
    }

    /** Runs template `name` against `data` with a context of its own. On an
        error nothing is kept: empty text, no bindings, the engine's error.
        On success the text is the trimmed output (no white space at either
        end, a contiguous piece of the output with only white space cut off)
        and the bindings are exactly those of this run. */
    method Execute(name: string, data: A) returns (text: string, bindings: seq<T>, err: Option<ExecError<E>>)
      ensures Outcome(text, bindings, err) == Expected(tpl, placeholder, name, data)
      ensures err.Some? ==> text == "" && bindings == []
      ensures err.None? ==> IsTrimmed(text)
    {
      var ctx := new Context(data, placeholder);
      var output, e := ExecuteTemplate(tpl, name, ctx);
      if e.Some? {
        return "", [], e;
      }
      text, bindings, err := TrimSpace(output), ctx.bindings, None;
    }
  }

  /** Two calls with the same arguments return the same bindings: nothing
      carries over from one call's context to the next. */
  method ExecuteTwice<A, T, E>(t: Template<A, T, E>, name: string, data: A, other: string, otherData: A)
    returns (first: seq<T>, second: seq<T>)
    ensures first == second
  {
    var _, b1, _ := t.Execute(name, data);
    var _, _, _ := t.Execute(other, otherData);
    var _, b2, _ := t.Execute(name, data);
    first, second := b1, b2;
  }

  /** One more action at the end of a script: its values come last. */
  lemma BoundSnoc<T>(actions: seq<Action<T>>, a: Action<T>)
    ensures Bound(actions + [a]) == Bound(actions) + ActionLeaves(a)
  {
    assert (actions + [a])[..|actions|] == actions;
  }

  /** One more action at the end of a script: its text comes last, at the
      position after the values the script bound. */
  lemma OutputSnoc<T>(actions: seq<Action<T>>, a: Action<T>, n: nat, f: int -> string)
    ensures Output(actions + [a], n, f) == Output(actions, n, f) + ActionText(a, n + |Bound(actions)|, f)
  {
    assert (actions + [a])[..|actions|] == actions;
  }

  /** The bindings of a script split at any point are those of the two parts. */
  lemma {:induction false} BoundAppend<T>(a: seq<Action<T>>, b: seq<Action<T>>)
    ensures Bound(a + b) == Bound(a) + Bound(b)
    decreases |b|
  {
    if b == [] {
      assert a + b == a;
    } else {
      var b', x := b[..|b| - 1], b[|b| - 1];
      assert Bound(a + b) == Bound(a + b') + ActionLeaves(x) by {
        BoundSnoc(a + b', x);
        assert a + b == (a + b') + [x];
      }
      assert Bound(b) == Bound(b') + ActionLeaves(x) by {
        BoundSnoc(b', x);
        assert b == b' + [x];
      }
      BoundAppend(a, b');
      Associative(Bound(a), Bound(b'), ActionLeaves(x));
    }
  }

  /** The bindings of a script are the scalar leaves of its `.Bind`
      arguments, in call order, depth first. */
  lemma {:induction false} BoundIsLeavesOfCalls<T>(actions: seq<Action<T>>)
    ensures Bound(actions) == LeavesOfSeq(BindArguments(actions))
  {
    if actions != [] {
      var init := actions[..|actions| - 1];
      var last := actions[|actions| - 1];
      BoundIsLeavesOfCalls(init);
      if last.CallBind? {
        LeavesOfSeqAppend(BindArguments(init), [last.value]);
        assert [last.value][..0] == [];
      } else {
        assert ActionLeaves(last) == [];
        assert BindArguments(actions) == BindArguments(init);
      }
    }
  }
}
