# kubectl-point: naming, validation and resource plan

`point <domain> --to=<host>:<port>` makes a Kubernetes Ingress forward a
domain to an address outside the cluster. It does so with three objects that
share one name: a Service without a selector, an Endpoints object that gives
that Service its single external address, and an Ingress that routes the domain
to the Service, optionally with a cert-manager issuer and a TLS entry. The Go
code does this inside one cobra `Run` closure, mixed with client calls.

This project takes the logic out of that closure and models it as pure Dafny
functions:

- `Sanitizer` turns the domain (the *subject*) into the object name: it rejects
  a subject that is not a fully-qualified domain name, replaces every `.` by
  `-`, and prepends `rootdomain-` when the result is not an RFC 1035 label
  (section 2.3.1 of RFC 1035, lower-case and at most 63 characters, as
  `IsDNS1035Label` checks it). The prefixed name is not checked again.
- `Destination` splits `--to` on `:` (exactly two pieces) and parses the port
  with Go's `strconv.Atoi` semantics, then wraps it to `int32`. There is no
  port-range check.
- `Issuers` builds the candidate issuer list (cluster issuers, then namespaced
  issuers) and resolves the prompt's answer.
- `Resources` builds the Service, Endpoints and Ingress from the validated
  values. `Linked` states the cross references between them, and `Realizes`
  states every field the plan fixes.
- `Point` chains everything in the source's order and applies the objects
  Service → Endpoints → Ingress. It stops at the first refusal.
- `GoStrings`, `GoStrconv` and `DnsLabel` model the library functions the code
  calls: `strings.Split`, `strings.Replace`, `strconv.Atoi`, `int32(...)` and
  the label validator.

The external collaborators are parameters. These are the FQDN validator
(`isFqdn: string -> bool`), the namespace, the two issuer-name lists, the
prompt's answer (`Choose(index)` or `Cancel`) and the API server's verdict on
each apply (`accepts: Resource -> bool`).

## Model

| member | source | states |
|---|---|---|
| GoStrings.ReplaceAllIsSplitJoin | cmd/point.go:275 | Replacing every occurrence of one character by another gives the same string as splitting on the first and joining with the second. |
| GoStrings.Split | cmd/point.go:65-66 | Splitting on a separator gives one more piece than there are separators in the string, and no piece contains the separator. |
| GoStrings.JoinSplit | cmd/point.go:65 | Joining the pieces with the separator gives back the original string. |
| GoStrings.SplitJoin | cmd/point.go:65 | Splitting a join of separator-free pieces gives back exactly those pieces. |
| GoStrconv.Atoi | cmd/point.go:83-86 | Succeeds exactly on an optional sign followed by one or more digits and nothing else, whose value lies in the 64-bit signed range, and then returns that value. Such a numeral outside the range is `ErrRange`, and an empty or sign-only string is `ErrSyntax`. |
| GoStrconv.AtoiAcceptsPaddedFormat | cmd/point.go:83-86 | Every accepted string is an optional sign, then zeros, then the shortest decimal numeral of the returned value's magnitude. |
| GoStrconv.AtoiRejectsNonDigit | cmd/point.go:83-86 | A non-digit anywhere after the optional sign is `ErrSyntax`, provided the digits before it do not pass 2^64 - 1. |
| GoStrconv.AtoiRangeBeforeSyntax | cmd/point.go:83-86 | Digits after the sign whose value passes 2^64 - 1 are `ErrRange` whatever follows them, even a non-digit. |
| GoStrconv.AtoiFormatInt | cmd/point.go:83 | Every 64-bit integer written in decimal parses back to itself. |
| GoStrconv.WrapInt32 | cmd/point.go:88 | The `int32` conversion gives the unique 32-bit value congruent to the input modulo 2^32. It is the identity on values already in range. |
| DnsLabel.Dns1035LabelErrors | cmd/point.go:276-277 | The validator reports no error exactly for RFC 1035 labels. It reports a length error exactly for strings over 63 characters (characters, not bytes: see "Left out"). |
| DnsLabel.MatchesLabelPatternIff | cmd/point.go:276 | The pattern `[a-z]([-a-z0-9]*[a-z0-9])?` matches exactly the non-empty strings of `[a-z0-9-]` that start with a letter and end with a letter or digit. |
| Sanitizer.HyphenateIsSplitJoin | cmd/point.go:275 | The hyphenated subject is the subject's dot-separated labels, in order, joined with hyphens. |
| Sanitizer.Sanitize | cmd/point.go:269-285 | Fails exactly when the FQDN check rejects the subject, and then with that subject. On success the name has no dot and its length is the subject's, or the subject's plus 11. |
| Sanitizer.HyphenatedIsLabelIff | cmd/point.go:275-281 | The hyphenated subject is a label exactly when the subject is 1–63 characters of `[a-z0-9.-]`, starts with a letter and ends with a letter or digit. |
| Sanitizer.SanitizeKeepsLabel | cmd/point.go:276-283 | An accepted subject whose hyphenated form is a label is returned in exactly that form. |
| Sanitizer.SanitizePrefixesNonLabel | cmd/point.go:276-281 | An accepted subject whose hyphenated form is not a label, for any reason, yields `rootdomain-` followed by that form, with no second check. |
| Sanitizer.PrefixRepairsLeadingDigit | cmd/point.go:277-280 | The assumption written next to the prefixing branch does hold in one case. If the only defect is a leading digit and the subject has at most 52 characters, the prefixed name is a label. |
| Sanitizer.PrefixedNameNotAlwaysLabel | cmd/point.go:277-281 | The assumption fails for a prefixed subject longer than 52 characters or ending in a dot. The resulting name is not a label. |
| Sanitizer.SanitizeNotInjective | cmd/point.go:275-283 | `a-b.launch.us` and `a.b.launch.us` get the same name. So do `2launch.us` and `rootdomain.2launch.us`. |
| Sanitizer.SanitizeFixedPoint | cmd/point.go:269-285 | Sanitizing a label output again returns it unchanged, provided the FQDN check accepts that output. |
| Sanitizer.ResanitizeFails | cmd/point.go:269-285 | With an FQDN check that accepts no dot-free name, sanitizing an accepted subject's name again is always an error. |
| Sanitizer.SanitizeTestTable | cmd/point_test.go:26-29 | `2launch.us` → `rootdomain-2launch-us`, `launch.us` → `launch-us`, `valid.launch.us` → `valid-launch-us`, and `invalid` is an error. |
| Destination.SplitDestination | cmd/point.go:65-68 | Accepted exactly when `--to` has one colon. The host and port name contain no colon, and a rejection names the offending value. |
| Destination.SplitDestinationRoundTrip | cmd/point.go:82-89 | An accepted destination is its host, a colon and its port name, each kept verbatim. |
| Destination.ColonFreeDestinationRejected | cmd/point.go:65-68 | A `--to` with no colon, such as `172.169.1.4` or `newdomain.com` from the usage text, is rejected with that value. |
| Destination.SplitDestinationOfJoin | cmd/point.go:65-68 | Any colon-free host and port name, including empty ones, are recovered from `host:port`. |
| Destination.ParsePort | cmd/point.go:83-88 | Succeeds exactly when `Atoi` does, and fails with the same error. The port is congruent to the parsed integer modulo 2^32. |
| Destination.ParsePortFormat | cmd/point.go:83-88 | Every `int32`, including negatives and values above 65535, is accepted as a port when written in decimal. |
| Destination.ParsePortWraps | cmd/point.go:88 | A number between 2^31 and the 64-bit maximum is accepted and wrapped, so the port differs from the number written. |
| Resources.TlsEntryAsWritten | cmd/point.go:245-249 | The source's TLS entry has one host, and that host equals the secret name `<subject>-tls`. |
| Resources.TlsEntryAsWrittenMissesHost | cmd/point.go:217-249 | That entry never lists the subject, which is the host the Ingress rule routes. |
| Resources.TlsEntry | cmd/point.go:245-249 | The corrected TLS entry lists exactly the subject, and its secret is `<subject>-tls`. |
| Resources.BuildGraph | cmd/point.go:141-252 | All three objects share the name and namespace. The Service and Endpoints both carry exactly `link=<name>` and the Ingress has no labels. There is one TCP port whose name and number the Endpoints repeat, with the host as the single address. The rule is the raw subject with path `/`, `Exact`, and a backend that names the Service and its port number. The issuer annotation and TLS entry are present exactly when `--tls-auto` is on and the issuer is non-empty, and are unset otherwise. The TLS entry is the one the source writes: host list `[<subject>-tls]`, secret `<subject>-tls`. |
| Resources.TlsMissesRoutedHost | cmd/point.go:216-250 | With the TLS branch on, the built Ingress's TLS host list never holds its rule host. |
| Resources.BuildGraphIntended | cmd/point.go:141-252 | The corrected graph is linked and equals the built graph except for the Ingress's TLS list. That list is present under the same condition and holds one entry for host `[<subject>]` with secret `<subject>-tls`. |
| Resources.TlsCoversRoutedHost | cmd/point.go:216-250 | With the TLS branch on, the corrected graph's TLS hosts are exactly its rule host. |
| Resources.RealizesDeterminesGraph | cmd/point.go:141-252 | Any graph meeting all of those field requirements is the built graph. |
| Issuers.CollectCandidates | cmd/point.go:106-115 | The two loops build exactly `Candidates`, the list `SelectIssuer` indexes: the cluster issuers followed by the namespaced issuers, position by position and with no duplicates removed. |
| Issuers.SelectIssuer | cmd/point.go:117-132 | Fails with `NoIssuerAvailable` exactly when both lists are empty, and with `SelectionAborted` exactly when the prompt is cancelled. Otherwise it returns the chosen element of the concatenated list. |
| Point.ApplyInOrder | cmd/point.go:162-258 | Applies stop at the first refusal. Every apply before it succeeded, the refused one is the last attempted, and success means every object was accepted. |
| Point.Prepare | cmd/point.go:65-132 | Succeeds exactly when the split of `--to`, the subject, the port and (with TLS on) the issuer selection all succeed. The first failing stage, in that order, gives the error, carrying that stage's own error. A plan keeps the subject, namespace and `--to` verbatim and carries the sanitized name and the parsed port. Its issuer is the selected one when TLS is on and empty otherwise. |
| Point.PrepareAcceptsWellFormed | cmd/point.go:65-132 | A destination written as colon-free `host:port`, an accepted subject, a port `Atoi` reads and, with TLS on, a chosen candidate yield exactly the plan made of those pieces. |
| Point.Execute | cmd/point.go:141-258 | The attempted applies are a non-empty prefix of Service, Endpoints, Ingress, each before the last accepted. The outcome is the built graph exactly when all three are accepted, a success attempted all three in that order, and a failure names the refused object, which is the last one attempted. |
| Point.Run | cmd/point.go:141-258 | A validation or selection failure applies nothing and reports that failure. Otherwise the prepared plan's objects are applied fail-fast, as for `Execute`, and a success returns the graph built from that plan after applying all three. |
| Point.EmptyPortRejected | cmd/point.go:65-86 | `--to=<host>:` with a colon-free host passes the split, but the empty port piece fails `Atoi` with a syntax error, so nothing is applied. |
| Point.RunSuccess | cmd/point.go:141-260 | A successful run applied all three objects, which are linked and realize the plan, TLS entry as the source writes it included. |
| Point.NoIssuerAppliesNothing | cmd/point.go:117-132 | With TLS requested and no issuers, the run fails with `NoIssuerAvailable` before any apply. |
| Point.TlsOffIgnoresIssuers | cmd/point.go:92-134 | Without `--tls-auto`, the issuer lists and prompt do not affect the run, and the Ingress has no TLS entry or issuer annotation. |
| Point.ServiceRefusalStopsRun | cmd/point.go:162-165 | A refused Service is the only apply attempted and the run fails. |
| Point.EndToEndExample | cmd/point.go:75-260 | `valid.launch.us --to=10.0.0.5:3000` without TLS, with every apply accepted, applies three objects. All are named `valid-launch-us`, the address is `10.0.0.5`, the rule host is `valid.launch.us`, the backend port is 3000, and there is no TLS entry. |

## Findings

| source | as written | input that shows it | evidently intended | confidence | as-written member | corrected member |
|---|---|---|---|---|---|---|
| cmd/point.go:245-249 | The TLS entry's host list is `[<subject>-tls]`, the same string as the secret name. | Subject `launch.us` with an issuer chosen: the Ingress routes host `launch.us` but asks for a certificate for `launch.us-tls` | The host list is `[<subject>]` and the secret is `<subject>-tls`. The certificate then covers the routed host. | medium; not executed | Resources.TlsEntryAsWritten (used by Resources.BuildGraph; shown by Resources.TlsMissesRoutedHost) | Resources.BuildGraphIntended (with Resources.TlsEntry; proved by Resources.TlsCoversRoutedHost) |

`BuildGraph`, and with it `Run`, builds the Ingress as the source does, with
`TlsEntryAsWritten`. `BuildGraphIntended` is the same graph with the corrected
entry. It differs in the TLS list only.

## Behaviour worth knowing

- The usage text's examples, `point example.org --to=172.169.1.4[:3000]` and
  `point https://example.org --to=newdomain.com` (cmd/point.go:40), present
  the port as optional. The code rejects every `--to` without exactly one
  colon (`ColonFreeDestinationRejected`), so both examples stop at the split.
  The second subject, with its `https://` scheme, would also fail the FQDN
  check.
- The port is not range-checked: any numeral `Atoi` accepts is taken, and
  values beyond 32 bits wrap (`ParsePortWraps`). The host piece of `--to` may
  be empty. An empty port piece is a syntax error (`EmptyPortRejected`).
- The prefix is added whenever the hyphenated subject is not a label, not only
  for a leading digit. A trailing dot or a length over 63 also takes that
  branch. Upper case and other characters outside `[a-z0-9.-]` never reach
  it, because the library's FQDN check rejects them first. The prefixed name
  is then not always a label (`PrefixedNameNotAlwaysLabel`).
- A sanitized name has no dot, and the library's FQDN check wants at least
  two labels, so sanitizing a name again fails (`ResanitizeFails`).
- The TLS branch is taken when the chosen issuer's name is non-empty, as the
  code tests `selectedIssuer != ""`, not merely when an issuer was chosen.

## Left out

- Kubeconfig loading, namespace defaulting from the current context, and
  client construction (cmd/point.go:45-63, 70-73, 95-98). These are I/O. The
  namespace is an input string.
- The cert-manager list calls and their errors (cmd/point.go:100-104, 111). The
  two issuer-name lists are inputs.
- The promptui selection widget (cmd/point.go:118-127). Its answer is an input
  and is required to be a position in the list shown.
- The Kubernetes `Apply` calls, their `FieldManager: "point"` option, and the
  `*errors.StatusError` type assertion on the Endpoints error path
  (cmd/point.go:162, 194-197, 254). Each apply is accepted or refused through
  the `accepts` parameter. A non-status error at that assertion would panic
  rather than log, and the model treats it as an ordinary refusal.
- Logging, the success message and process exit (`log.Fatal*`,
  cmd/point.go:138-139, 167, 200, 260). Failures are `Err` values.
- The cobra command and flag wiring (cmd/point.go:37-41, 287-295). The flags'
  values are fields of `Invocation`.
- DnsLabel.Dns1035LabelErrors: lengths are counted in characters, while Go's
  `len` counts UTF-8 bytes. The two agree only on ASCII input, which is all
  that reaches the label check, because the FQDN check rejects non-ASCII
  subjects.
- GoStrconv.Atoi: Go's `int` is taken to be 64 bits, as on amd64 and arm64.
  On a 32-bit build `Atoi` has the `int32` range, so `ParsePortWraps` does not
  hold there: `--to=h:2147483648` is `ErrRange` and the run stops. The
  unsigned overflow of `AtoiRangeBeforeSyntax` then happens at 2^32 - 1
  instead of 2^64 - 1.
- Sanitizer.SanitizeFixedPoint: holds for every `isFqdn`, but is vacuous for
  the library's check, which accepts no dot-free name; `ResanitizeFails`
  states what happens instead.
- The library's fully-qualified-domain-name check (cmd/point.go:271) belongs
  to another package. It is the parameter `isFqdn`, constrained only where a
  lemma needs a verdict.
