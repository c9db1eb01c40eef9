/** The usage of `examples/main.go`: a `$n` formatter and a template set
    queried by e-mail address, once with a single address and once with a
    list of addresses. The template file itself is not part of this model;
    its two bodies are written out here as action scripts. */
module Demo {
  import opened GoStrings
  import opened Binding
  import opened Templates

  /** Decimal digits of a natural number. */
  function Decimal(n: nat): string
  {
    if n < 10 then ["0123456789"[n]] else Decimal(n / 10) + ["0123456789"[n % 10]]
  }

  /** `fmt.Sprintf("$%d", i)`. */
  function Dollar(i: int): string
  {
    "$" + (if i < 0 then "-" + Decimal(-i) else Decimal(i))
  }

  /** The first two positions format as `$1` and `$2`. */
  lemma DollarFirstPositions()
    ensures Dollar(1) == "$1" && Dollar(2) == "$2"
  {
    assert Decimal(1) == "1";
    assert Decimal(2) == "2";
  }

  /** The data the demo passes as `.Args`. */
  datatype Args = Args(email: string, emails: seq<string>)

  /** `SELECT * FROM users WHERE email = {{.Bind .Args.email}}` */
  function ByEmail(d: Args): Run<string, string>
  {
    Run([Text("SELECT * FROM users WHERE email = "), CallBind(Scalar(d.email))], None)
  }

  /** `SELECT * FROM users WHERE email IN ({{.Bind .Args.emails}})` */
  function ByEmails(d: Args): Run<string, string>
  {
    Run([Text("SELECT * FROM users WHERE email IN ("), CallBind(Seq(Scalars(d.emails))), Text(")")], None)
  }

  /** `SELECT * FROM users WHERE email in ({{.Concat (index .Args.emails 0) (index .Args.emails 1)}})`:
      `.Concat` takes its strings one by one, so the first two addresses are
      passed separately. With fewer than two addresses the engine has written
      the opening text and then fails on the out-of-range `index`. */
  function ByConcat(d: Args): Run<string, string>
  {
    if |d.emails| < 2 then
      Run([Text("SELECT * FROM users WHERE email in (")], Some("index out of range"))
    else
      Run(ConcatActions(d.emails[0], d.emails[1]), None)
  }

  /** The actions of the `.Concat` body given its two arguments. */
  function ConcatActions(e1: string, e2: string): seq<Action<string>>
  {
    [Text("SELECT * FROM users WHERE email in ("), CallConcat([e1, e2]), Text(")")]
  }

  const Queries: Bodies<Args, string, string> :=
    map["get_user_by_email" := ByEmail, "get_users_by_emails" := ByEmails, "get_users_by_concat" := ByConcat]

  /** A body that completes makes `Execute` return its trimmed output and
      the values it bound. */
  lemma Completes(tpl: Bodies<Args, string, string>, name: string, data: Args, out: string, bound: seq<string>)
    requires name in tpl && tpl[name](data).failure.None?
    requires Output(tpl[name](data).actions, 0, Dollar) == out
    requires Bound(tpl[name](data).actions) == bound
    ensures Expected(tpl, Dollar, name, data) == Outcome(TrimSpace(out), bound, None)
  {
  }

  /** ... and when that output has no white space at its ends, exactly it. */
  lemma Succeeds(tpl: Bodies<Args, string, string>, name: string, data: Args, out: string, bound: seq<string>)
    requires name in tpl && tpl[name](data).failure.None?
    requires Output(tpl[name](data).actions, 0, Dollar) == out
    requires Bound(tpl[name](data).actions) == bound
    requires IsTrimmed(out)
    ensures Expected(tpl, Dollar, name, data) == Outcome(out, bound, None)
  {
    Completes(tpl, name, data, out, bound);
    assert out == [] + out + [];
    TrimSpaceUnique([], out, []);
  }

  /** A body made of literal text and one call. */
  lemma TextThenCall<T>(before: string, call: Action<T>, f: int -> string)
    ensures Bound([Text(before), call]) == ActionLeaves(call)
    ensures Output([Text(before), call], 0, f) == before + ActionText(call, 0, f)
  {
    var a0: Action<T> := Text(before);
    assert Bound([a0]) == [] && Output([a0], 0, f) == before by {
      BoundSnoc([], a0);
      OutputSnoc([], a0, 0, f);
      assert [] + [a0] == [a0];
    }
    assert Bound([a0, call]) == [] + ActionLeaves(call) && Output([a0, call], 0, f) == before + ActionText(call, 0, f) by {
      BoundSnoc([a0], call);
      OutputSnoc([a0], call, 0, f);
      assert [a0] + [call] == [a0, call];
    }
    assert [] + ActionLeaves(call) == ActionLeaves(call);
  }

  /** A body made of literal text, one call and literal text. */
  lemma TextCallText<T>(before: string, call: Action<T>, after: string, f: int -> string)
    ensures Bound([Text(before), call, Text(after)]) == ActionLeaves(call)
    ensures Output([Text(before), call, Text(after)], 0, f) == before + ActionText(call, 0, f) + after
  {
    var a0: Action<T> := Text(before);
    var a2: Action<T> := Text(after);
    TextThenCall(before, call, f);
    BoundSnoc([a0, call], a2);
    OutputSnoc([a0, call], a2, 0, f);
    assert [a0, call] + [a2] == [a0, call, a2];
    assert ActionLeaves(call) + [] == ActionLeaves(call);
  }

  lemma ByEmailScript(email: string, emails: seq<string>)
    ensures Output(ByEmail(Args(email, emails)).actions, 0, Dollar) == "SELECT * FROM users WHERE email = " + "$1"
    ensures Bound(ByEmail(Args(email, emails)).actions) == [email]
  {
    TextThenCall("SELECT * FROM users WHERE email = ", CallBind(Scalar(email)), Dollar);
    DollarFirstPositions();
  }

  lemma EmailStatementTrimmed()
    ensures IsTrimmed("SELECT * FROM users WHERE email = " + "$1")
  {
    var out := "SELECT * FROM users WHERE email = " + "$1";
    assert out[0] == 'S' && out[|out| - 1] == '1';
  }

  /** A single address binds as `$1`. */
  lemma SingleAddress(email: string, emails: seq<string>)
    ensures Expected(Queries, Dollar, "get_user_by_email", Args(email, emails))
         == Outcome("SELECT * FROM users WHERE email = " + "$1", [email], None)
  {
    assert Queries["get_user_by_email"] == ByEmail;
    ByEmailScript(email, emails);
    EmailStatementTrimmed();
    Succeeds(Queries, "get_user_by_email", Args(email, emails), "SELECT * FROM users WHERE email = " + "$1", [email]);
  }

  /** Binding a two-element slice first: `$1, $2`. */
  lemma PairOfAddresses(e1: string, e2: string)
    ensures Token(Seq(Scalars([e1, e2])), 0, Dollar) == "$1, $2"
    ensures Leaves(Seq(Scalars([e1, e2]))) == [e1, e2]
  {
    var v := Seq(Scalars([e1, e2]));
    FlatLeaves([e1, e2]);
    DenseToken(v, 0, Dollar);
    DollarFirstPositions();
    assert Placeholders(1, 2, Dollar) == ["$1", "$2"];
    assert ["$1", "$2"][..1] == ["$1"];
  }

  lemma ByEmailsScript(e1: string, e2: string)
    ensures Output(ByEmails(Args("", [e1, e2])).actions, 0, Dollar) == "SELECT * FROM users WHERE email IN (" + "$1, $2" + ")"
    ensures Bound(ByEmails(Args("", [e1, e2])).actions) == [e1, e2]
  {
    TextCallText("SELECT * FROM users WHERE email IN (", CallBind(Seq(Scalars([e1, e2]))), ")", Dollar);
    PairOfAddresses(e1, e2);
  }

  lemma EmailsStatementTrimmed()
    ensures IsTrimmed("SELECT * FROM users WHERE email IN (" + "$1, $2" + ")")
  {
    var out := "SELECT * FROM users WHERE email IN (" + "$1, $2" + ")";
    assert out[0] == 'S' && out[|out| - 1] == ')';
  }

  /** A list of two addresses binds as `$1, $2`, the addresses in order. */
  lemma TwoAddresses(e1: string, e2: string)
    ensures Expected(Queries, Dollar, "get_users_by_emails", Args("", [e1, e2]))
         == Outcome("SELECT * FROM users WHERE email IN (" + "$1, $2" + ")", [e1, e2], None)
  {
    assert Queries["get_users_by_emails"] == ByEmails;
    ByEmailsScript(e1, e2);
    EmailsStatementTrimmed();
    Succeeds(Queries, "get_users_by_emails", Args("", [e1, e2]), "SELECT * FROM users WHERE email IN (" + "$1, $2" + ")", [e1, e2]);
  }

  lemma ByConcatScript(e1: string, e2: string)
    ensures Output(ConcatActions(e1, e2), 0, Dollar) == "SELECT * FROM users WHERE email in (" + e1 + e2 + ")"
    ensures Bound(ConcatActions(e1, e2)) == []
  {
    TextCallText<string>("SELECT * FROM users WHERE email in (", CallConcat([e1, e2]), ")", Dollar);
    assert Concatenation([e1, e2]) == e1 + e2 by {
      assert [e1, e2][1..] == [e2];
      assert [e2][1..] == [];
      assert Concatenation([e2]) == e2 + Concatenation([]);
      assert e2 + "" == e2;
    }
  }

  lemma ConcatStatementTrimmed(e1: string, e2: string)
    ensures IsTrimmed("SELECT * FROM users WHERE email in (" + e1 + e2 + ")")
  {
    var out := "SELECT * FROM users WHERE email in (" + e1 + e2 + ")";
    assert out[0] == 'S' && out[|out| - 1] == ')';
  }

  /** `.Concat` binds nothing: the two addresses passed to it land in the
      statement verbatim, with no separator and no placeholder. */
  lemma ConcatIsVerbatim(e1: string, e2: string)
    ensures Expected(Queries, Dollar, "get_users_by_concat", Args("", [e1, e2]))
         == Outcome("SELECT * FROM users WHERE email in (" + e1 + e2 + ")", [], None)
  {
    var d := Args("", [e1, e2]);
    assert ByConcat(d).actions == ConcatActions(e1, e2);
    ByConcatScript(e1, e2);
    assert Queries["get_users_by_concat"] == ByConcat;
    ConcatStatementTrimmed(e1, e2);
    Succeeds(Queries, "get_users_by_concat", d, "SELECT * FROM users WHERE email in (" + e1 + e2 + ")", []);
  }

  /** Too few addresses for the `.Concat` query: `Execute` keeps none of the
      text written before the failure and returns only the engine's error. */
  lemma ConcatShortList(emails: seq<string>)
    requires |emails| < 2
    ensures Expected(Queries, Dollar, "get_users_by_concat", Args("", emails))
         == Outcome("", [], Some(EvalError("index out of range")))
  {
    assert Queries["get_users_by_concat"] == ByConcat;
  }

  /** The demo program: build the wrapper, execute the single-address query
      with the address and the two-address list the program passes. */
  method GetUserByEmail(email: string) returns (text: string, bindings: seq<string>, err: Option<ExecError<string>>)
    ensures text == "SELECT * FROM users WHERE email = " + "$1"
    ensures bindings == [email] && err == None
  {
    var t := new Template.New(Queries, Dollar);
    text, bindings, err := t.Execute("get_user_by_email", Args(email, ["e1@o.com", "e2@o.com"]));
    SingleAddress(email, ["e1@o.com", "e2@o.com"]);
  }
}
