# Go playground runner: a Dafny model

This project models the part of the Go playground service (`main.go`) that turns a
`/run` request into a response.

- `handleRun` rejects anything that is not a POST carrying a non-empty `code`
  form value.
- Otherwise it calls `runGoCode`, which works in four steps. It creates a
  temporary directory and writes the code into it as `main.go`. It then runs
  `go mod init playground` and `go run main.go` in that directory, under a
  deferred `os.RemoveAll`.
- The result is either an error text, with a fixed prefix for each failing step,
  or the program's output. The output is stdout, then stderr, with a
  `--- stderr ---` line between them when both have text, trimmed of white
  space.
- The reply is a JSON object with exactly one key, `error` or `output`.

Files:

- `go_strings.dfy`, module `GoStrings`. Go's `strings.TrimSpace` with
  `unicode.IsSpace`, written as `TrimLeft` then `TrimRight`. It comes with a
  characterisation: `TrimSpace(s)` is the unique slice of `s` that is obtained
  by cutting only white space and that neither starts nor ends with white
  space.
- `runner.dfy`, module `Runner`, covers several pieces:
  - the error texts, and `KindOf`, which reads an error text back by its prefix;
  - how a failed `go run` is classified;
  - output assembly, `AssembleOutput`, built step by step as in the source;
  - class `Host`, the machine, with a ghost set of live temporary directories
    and a ghost trace of the effects caused;
  - `RunGoCode`, proved against the specification functions `Failure` (the
    error returned) and `Actions` (the effects caused, in order).
- `handler.dfy`, module `Handler`, holds the request gate `Gate` and
  `HandleRun`.

The filesystem and the `go` toolchain are not executed. Each external step is an
outcome given in an `Environment` value: success, or failure with the text of
Go's `err.Error()`. For `go run` the outcome also carries what was written to
stdout and stderr. A `Host` method stands for each call into the operating
system. It returns the given outcome and records its effect.

The `defer os.RemoveAll(tempDir)` of main.go:239 is modelled as one removal in
`RunGoCode`, placed after the inner method `RunInDir`. `RunInDir` holds every
early return of the rest of the function, so removal follows each of them, as
the `defer` guarantees.

Each error text is its fixed prefix followed by a detail: stderr for a
compilation error, and the cause otherwise (main.go:237, 245, 255, 270, 272).

## Model

| member | source | states |
|---|---|---|
| `GoStrings.TrimLeft` | main.go:284 | the result is a suffix of the input that does not start with white space, and everything cut off is white space |
| `GoStrings.TrimRight` | main.go:284 | the result is a prefix of the input that does not end with white space, and everything cut off is white space |
| `GoStrings.TrimSpace` | main.go:284 | the result is no longer than the input and neither starts nor ends with white space |
| `GoStrings.TrimSpaceIsTrimming` | main.go:284 | `TrimSpace(s)` is a slice `s[i..j]` with only white space before `i` and after `j`, and no white space at its edges |
| `GoStrings.TrimmingIsTrimSpace` | main.go:284 | any such slice equals `TrimSpace(s)`, so the trimmed text is unique and interior formatting is kept |
| `GoStrings.TrimSpaceIdempotent` | main.go:284 | trimming an already trimmed text changes nothing |
| `GoStrings.TrimSpaceOfBlank` | main.go:284 | text made only of white space, including the empty text, trims to "" |
| `GoStrings.TrimSpaceOfNonBlank` | main.go:284 | text with a character that is not white space does not trim to "" |
| `GoStrings.TrimLeftAt` | main.go:284 | TrimLeft stops exactly at the first character that is not white space |
| `GoStrings.TrimRightAt` | main.go:284 | TrimRight stops exactly after the last character that is not white space |
| `GoStrings.TrimLeftOfConcat` | main.go:284 | TrimLeft of `a + x` with `a` not blank leaves `x` untouched |
| `GoStrings.TrimRightOfConcat` | main.go:284 | TrimRight of `y + b` with `b` not blank leaves `y` untouched |
| `GoStrings.TrimSpaceOfInfix` | main.go:284 | text between two non-blank texts survives trimming whole; only the outer edges are cut |
| `Runner.KindOfErrorText` | main.go:235-272 | each error text carries its own prefix: the failing stage and the detail can both be read back from it |
| `Runner.RunFailure` | main.go:269-272 | a failed run reads back as a compilation error carrying stderr when stderr has text, and as a runtime error carrying the process error otherwise |
| `Runner.RunFailureClassified` | main.go:266-273 | a failed run with stderr text gives exactly `"compilation error:\n" + stderr`; with empty stderr it gives exactly `"runtime error: " + cause` |
| `Runner.AssembleOutput` | main.go:275-286 | the output is `TrimSpace(stdout + sep + stderr)`, where `sep` is the separator line exactly when both streams are non-empty; it has no white space at either edge |
| `Runner.OutputWithoutStderr` | main.go:275-284 | with empty stderr the output is stdout trimmed |
| `Runner.OutputWithoutStdout` | main.go:276-284 | with empty stdout the output is stderr trimmed, with no separator |
| `Runner.OutputOfSilentRun` | main.go:275-286 | empty stdout and empty stderr give the empty output |
| `Runner.OutputKeepsSeparator` | main.go:276-284 | when both streams hold non-blank text, the output is stdout trimmed on the left, the separator line, then stderr trimmed on the right |
| `Runner.OutputIsTrimmed` | main.go:284-286 | trimming the output again changes nothing |
| `Runner.OutputExampleTrimmed` | main.go:275-284 | stdout `"  hello \n\n"` with empty stderr gives `"hello"` |
| `Runner.OutputExampleWithStderr` | main.go:275-284 | stdout `"ok"` and stderr `"warn"` give `"ok\n--- stderr ---\nwarn"` |
| `Runner.Failure` | main.go:236-273 | runGoCode returns no error exactly when all four steps succeed; any error it returns names its stage by its prefix |
| `Runner.FailureNamesFirstFailingStep` | main.go:235-273 | the error returned names the first step that failed; once the first three steps succeed, an error is returned exactly when `go run` failed |
| `Runner.ActionsShortCircuit` | main.go:235-266 | a failed directory creation causes nothing more; `go run` starts exactly when creation, the write and `go mod init` all succeeded, and then only after writing the code verbatim and initialising the module |
| `Runner.ActionsCleanUp` | main.go:235-239 | once the directory exists, its removal is the last effect and happens exactly once |
| `Runner.Host.MkdirTemp` | main.go:235 | on success a directory that was not live before now exists; on failure nothing changes |
| `Runner.Host.WriteFile` | main.go:242-243 | writing the code into a live directory is recorded, with the step's outcome returned |
| `Runner.Host.GoModInit` | main.go:252-254 | `go mod init` runs in a live directory, with the step's outcome returned |
| `Runner.Host.GoRun` | main.go:259-266 | `go run` runs in a live directory and returns its status and both captured streams |
| `Runner.Host.RemoveAll` | main.go:239 | the directory is no longer live |
| `Runner.RunInDir` | main.go:241-286 | the steps after directory creation short-circuit in order; the error is the first failure's text and the output is "" with it; otherwise the output is the assembled one |
| `Runner.RunGoCode` | main.go:233-287 | no temporary directory outlives the call on any path; the effects follow `Actions`; the result is `Failure(env)` with output "", or no error with the assembled output |
| `Handler.Gate` | main.go:211-220 | a request reaches the runner exactly when it is a POST with non-empty code; a non-POST gets 405, a POST without code gets 400, both as plain text |
| `Handler.HandleRun` | main.go:210-231 | a rejected request leaves the machine unchanged, so the runner is never invoked; an admitted one gets status 200 and a JSON object with exactly one key, `error` with the runner's error or `output` with its output |

## Left out

- HTTP server setup, route registration, static file serving and the `PORT` default (main.go:30-42): configuration and I/O.
- The index page and its template (main.go:44-208): presentation. The "no output" placeholder is client-side script.
- Form parsing behind `r.FormValue("code")`: a request is given as its method and the form value, which is "" when the field is absent.
- What the Go toolchain does with the code: `go mod init` and `go run` are foreign processes, so their outcomes and streams are inputs. The output of `go mod init` is discarded by the source and is not modelled.
- The 10-second deadline shared by both commands, and the killing of the process (main.go:249-250): wall-clock time. A killed command is one more failed outcome; the model does not tie the two commands to one time budget.
- The real filesystem: directory names from the pattern `go-playground-*`, the file mode 0644 and the path join. Directories are numbers; only their existence and the effects on them are kept.
- `Runner.Host.RemoveAll`: the removal always succeeds in the model. In the source a failed `os.RemoveAll` is ignored by the `defer` and would leave the directory behind.
- The quoting of the JSON values with `%q` (main.go:225, main.go:230): a JSON field is modelled as a raw key and string value. Go's `%q` escapes are not all JSON escapes, so control characters in the output are not modelled.
- The `X-Content-Type-Options` header that `http.Error` also sets.
- Invalid UTF-8 in the streams: texts are sequences of Unicode scalar values. `TrimSpace` on invalid bytes is not modelled.
- Concurrent requests: each call is modelled on its own. Isolation between simultaneous calls, which comes from unique directory names, is kept only as "a new directory was not live before".
- The unused `PlaygroundResponse` struct (main.go:25-28).
