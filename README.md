# sqltmpl in Dafny

A model of `sqltmpl`, a small Go library that renders SQL statements from Go
`text/template` templates. A template calls back into a per-execution binding
context:

- `.Bind v` records `v` as a bound parameter and writes a placeholder token
  (`$1`, `?`, ... as the caller's formatter decides). A slice or array is
  bound element by element and the tokens are joined with `", "`.
- `.Concat a b ...` writes its string arguments glued together, binding nothing.

`Template.Execute` runs one named template with a fresh context. On an engine
error it returns empty text, no bindings and the error. On success it returns
the trimmed statement and the values bound while producing it.

The model has four modules:

- `GoStrings` (`strings.dfy`) models the two functions of Go's `strings`
  package that the library calls.
  - `Join` works like `strings.Join`. `Concatenation` is its reference
    definition for an empty separator.
  - `TrimSpace` works like `strings.TrimSpace`. It uses Go's exact
    `unicode.IsSpace` set: the Latin-1 spaces plus the Unicode White_Space
    characters.
- `Binding` (`context.dfy`) models the binding context.
  - `Value` is `Scalar(x) | Seq(items)`, the split made by the reflection test.
  - `Context` is a class. `args` and `placeholder` are fixed and `bindings`
    is a growing `seq`.
  - `Bind` is a recursive method. Its slice loop is `BindEach`.
  - Both are proved against the specification functions `Leaves` (what gets
    bound, depth first) and `Token` (what gets written).
- `Templates` (`template.dfy`) models the engine and the wrapper.
  - The engine is abstracted: a template set maps each name to a body. Given
    the data, a body yields the script of actions the engine performs
    (literal text, a `.Bind` call, a `.Concat` call) and possibly an
    evaluation error.
  - `ExecuteTemplate` performs a script against a context.
  - `Template.Execute` is proved equal to the specification function
    `Expected`.
- `Demo` (`demo.dfy`) models the usage shown in `examples/main.go`.
  - The formatter is `$%d`.
  - The query bodies are written out as scripts, since the template file they
    come from is not part of this model.
  - It proves the statements and bindings they produce.

## Model

| member | source | states |
|---|---|---|
| Binding.Context.constructor | template.go:26 | A fresh context keeps the given data and formatter and starts with no bindings. |
| Binding.Context.Bind | context.go:19-34 | Appends the leaves of the value, depth first and left to right, after the old bindings, and returns the value's token. A scalar appends exactly itself and returns the formatter at the new length, which is its 1-based position. An empty slice binds nothing and returns "". |
| Binding.Context.BindEach | context.go:23-29 | Binds the elements of a slice in order. Each element's token is what binding it alone would return at that point. The leaves of all elements are appended in order. |
| Binding.Context.Concat | context.go:39-41 | The result is the fragments concatenated front to back with no separator. It is a function of the fragments only, so it binds nothing. |
| Binding.BindTwice | context.go:32-33 | Binding the same scalar twice on a fresh context gives positions 1 and 2 and two entries: there is no deduplication. |
| Binding.LeavesOfSeqAppend | context.go:25-27 | The values bound for a list split in two are those of the first part followed by those of the second. |
| Binding.FlatLeaves | context.go:22-27 | A flat slice of scalars binds exactly its elements, in order. |
| Binding.DenseToken | context.go:22-33 | A value with no empty slice inside binds at least one value. Its token is the formatter's tokens for the consecutive positions n+1 ... n+k, joined with ", ". |
| Binding.DenseTokens | context.go:25-29 | The same for a non-empty list of such values bound one after the other. |
| Binding.EmptyInnerSlice | context.go:23-29 | An empty slice nested in a slice still yields an empty token. Binding [[], [x]] on a fresh context therefore writes ", " followed by the first placeholder and binds only x. |
| GoStrings.JoinAppend | context.go:29 | Joining two non-empty lists gives the join of the first, the separator, then the join of the second. |
| GoStrings.JoinEmptySeparator | context.go:40 | Joining with "" is plain concatenation. |
| GoStrings.ConcatenationAppend | context.go:40 | Concatenating a split list gives the concatenation of its two parts. |
| GoStrings.LeadingSpaces | template.go:32 | Counts the white-space prefix: every character before the count is white space, and the next one is not. |
| GoStrings.TrailingSpaces | template.go:32 | The same for the white-space suffix. |
| GoStrings.TrimSpace | template.go:32 | The result has no white space at either end. It is a contiguous piece of the input, and everything cut off on both sides is white space. |
| GoStrings.TrimSpaceUnique | template.go:32 | Trimming white space + trimmed middle + white space gives exactly the middle. |
| GoStrings.TrimSpaceIdempotent | template.go:32 | Trimming twice is trimming once. |
| Templates.Perform | context.go:19-41 | One engine action against the context. Literal text is written unchanged. A `.Bind` call binds its value and writes its token. A `.Concat` call writes the concatenation and binds nothing. |
| Templates.PerformAll | template.go:28 | A body's actions, performed in order, append the values of the script to the bindings and produce the script's text. |
| Templates.ExecuteTemplate | template.go:28-30 | An unknown name writes nothing, binds nothing and reports that the template does not exist. Otherwise the output and bindings are those of the body's script, and the body's evaluation error, if any, is reported. |
| Templates.Template.New | template.go:15-20 | Stores the template set and the formatter unchanged. |
| Templates.Template.Execute | template.go:24-33 | The result equals `Expected`. Any engine error gives "", no bindings and that error. Success gives the trimmed output (no white space at either end) and exactly the values bound during this call, counted from a fresh context. |
| Templates.ExecuteTwice | template.go:26 | Two calls with the same arguments return the same bindings, whatever ran in between. Nothing carries over between calls. |
| Templates.BoundAppend | template.go:28 | The values bound by a script split in two are those of the first part followed by those of the second. |
| Templates.BoundIsLeavesOfCalls | template.go:32 | The bindings `Execute` returns are the scalar leaves of the `.Bind` arguments, in call order. |
| Demo.SingleAddress | examples/main.go:10-20 | Whatever address list the data also carries, the single-address query renders as `SELECT * FROM users WHERE email = $1` and binds the address. |
| Demo.PairOfAddresses | context.go:18-33 | Binding a two-element slice first gives `$1, $2` and binds both elements in order. |
| Demo.TwoAddresses | examples/main.go:10-20 | The address-list query renders as `... email IN ($1, $2)` and binds both addresses in order. |
| Demo.ConcatIsVerbatim | context.go:36-41 | The `.Concat` query, given two addresses as separate arguments, renders as exactly `SELECT * FROM users WHERE email in (` + e1 + e2 + `)`: the addresses are pasted in verbatim, with no placeholder and no separator, and nothing is bound. |
| Demo.ConcatShortList | template.go:28-30 | With fewer than two addresses the `.Concat` query fails in the engine, and `Execute` returns "", no bindings and that error, dropping the text already written. |
| Demo.GetUserByEmail | examples/main.go:10-20 | The demo program's call, with the address and the two-address list it passes, returns the rendered single-address statement, one binding and no error. |

## Left out

- The `text/template` engine is foreign code. Parsing, field access on `.Args` and name lookup are replaced by a table from names to bodies. A body maps the data to its script of actions and an optional failure, and the failure is taken to come after the actions.
- A `.Bind` or `.Concat` whose arguments are computed by template pipelines is not modelled: the script holds their values directly.
- The result of a `.Bind` is always written once, where it is called. A template that stores it in a variable and writes it several times, tests it in `{{if}}` or drops it is not modelled. In such a template the written placeholders and the bindings no longer line up one to one.
- Go reflection is replaced by the `Scalar | Seq` datatype. In Go every slice and array is expanded, including `[]byte`. Strings, maps, pointers and nil are bound as one value. A `Value` is finite, so a Go slice that contains itself cannot be expressed. In Go, binding one recurses until the stack overflows and the program crashes; the model's `Bind` always terminates.
- Go's distinction between a nil and an empty bindings slice is not modelled: both are the empty sequence. On error `Execute` returns nil.
- Formatter panics and side effects are not modelled: the formatter is a pure total function `int -> string`.
- Strings are sequences of characters, not UTF-8 bytes. `TrimSpace` works on characters with the same white-space set.
- `bytes.Buffer` is modelled as a string the output is appended to.
- Concurrent use of one `Template` is not modelled. Each call owns a fresh context, as `ExecuteTwice` states.
- The template file `sql.tmpl` that `examples/main.go` loads is not part of this model. The bodies in `Demo` follow the example queries in the doc comments of `context.go`. The `.Concat` body passes the first two addresses as separate arguments (`index .Args.emails 0`, `index .Args.emails 1`): `.Concat` takes its strings one by one, and the doc comment's `{{.Concat .Args.emails}}` hands it a whole slice instead. The address list bound with `.Bind` is written in the same style. The engine's error text is modelled as a plain string. Printing the result is left out.
- Templates.Output: no lemma splits the text of a script at an arbitrary point. Only the one-action steps (`BoundSnoc`, `OutputSnoc`) and the concrete demo scripts are proved.
