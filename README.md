# Intel AMT WS-Management client — Dafny model

This project models the decision logic of `amt/client.py`, the client that drives an
Intel AMT device over WS-Management: it powers the machine on, off or through a reboot,
reads its power state, sets a one-shot next-boot device, and enables remote KVM (VNC).
Sockets, the clock, HTTP and the XML library are replaced by stand-ins, so that every
rule of the client becomes a precondition, postcondition or lemma.

- `Endpoint` (endpoint.dfy): the protocol-to-port table (`http` → 16992, `https` → 16993)
  and the URI `protocol://address:port/wsman`.
- `Numerals` (numerals.dfy): decimal text of integers (how `%s` renders the port) and the
  integer conversion applied to a ReturnValue, with their round trip.
- `Extract` (extract.dfy): a parsed response as a tree of elements (namespace, local name,
  optional text, children). `FindValue` and `ReturnValue` are `_find_value` and
  `_return_value`: the first element below the root, in document order, whose qualified
  name matches. The tree walk is proved equal to a scan of the document-order listing.
- `Network` (network.dfy): the stand-in for the outside world. The class `Net` holds an
  integer millisecond clock, the number of connect attempts and POSTs made so far, the
  scripted outcome (result and duration) of every connect attempt, and the scripted reply
  to every POST.
- `Reachability` (reachability.dfy): `AwakenRun`, the specification of the `_awaken_amt`
  loop, and what is proved about it.
- `Wsman` (wsman.dfy): the payload builders of the external `wsman` module, as a datatype
  naming the builder and its arguments.
- `AmtClient` (client.dfy): the decision `post` takes on a response (`Decide`), the
  specification of each operation as a function of the network state (`PostRun`,
  `PowerStatusRun`, `TwoPostsRun`), the RFB password choice, and the `Client` class. Its
  immutable `uri`, `username` and `password`, and a ghost log of the requests sent
  (payload and validation namespace), sit beside methods that run the operations
  against a `Net`.

Behaviour of `amt/client.py` the model keeps:

- `post` returns no value (Python `None`) when the status is 200 and the ReturnValue is a
  nonzero integer. `PostValue.NoValue` keeps that outcome apart from `One`.
- On a status other than 200, `post` pretty-prints the body before returning 1, so a body
  that is not XML raises a parse error there (`Decide`).
- Each connect attempt is given the whole reachability timeout as its own timeout. If no
  attempt takes longer than `limit` ms, the loop ends before the deadline plus `limit`
  plus the 500 ms back-off (`AwakenOvershoot`).
- An exception from either request of `set_next_boot` or `enable_vnc` propagates at once.
  The second request goes out whatever the first returned, and not after the first raised.
- `_find_value` returns the element's text, which is absent for an empty element. Then
  `power_status` returns no value, and `_return_value` fails.

## Model

| member | source | states |
|---|---|---|
| `Endpoint.PortOf` | amt/client.py:58-62 | `http` maps to 16992 and `https` to 16993. Every other protocol is an unknown-protocol error. |
| `Endpoint.Uri` | amt/client.py:79-86 | A URI exists exactly for the two known protocols. Otherwise construction fails as the table lookup does. |
| `Endpoint.KnownProtocolUris` | amt/client.py:59-62 | A plaintext client's URI is `http://<address>:16992/wsman`; a TLS client's is `https://<address>:16993/wsman`. |
| `Endpoint.UriDeterminesEndpoint` | amt/client.py:79-86 | Two clients with the same URI were built from the same protocol and address. |
| `Numerals.DecimalRoundTrip` | amt/client.py:82-86 | `Decimal`, the `%s` rendering of the port, gives text that is all digits, has no leading zero, and reads back as the port. |
| `Numerals.DecimalInjective` | amt/client.py:82-86 | Different ports render differently. |
| `Numerals.PortTexts` | amt/client.py:59-62 | 16992 and 16993 render as `"16992"` and `"16993"`. |
| `Numerals.ParseInt` | amt/client.py:236 | The conversion accepts only an optional sign followed by digits. A `-` sign gives a non-positive value; no sign or `+` gives a non-negative one. |
| `Numerals.ParseIntRoundTrip` | amt/client.py:236 | Converting the decimal text of any integer, negative ones included, gives that integer back. |
| `Extract.FirstMatch` | amt/client.py:222-223 | The document-order scan returns nothing exactly when no element has the qualified name. Otherwise it returns a listed element with that name. |
| `Extract.FirstMatchAt` | amt/client.py:222-223 | If element i is the first with the name, the scan returns element i. |
| `Extract.SearchInDocumentOrder` | amt/client.py:222-223 | `Search`, the tree walk of `find('.//{ns}key')` over the root's descendants, returns exactly the first match in document order. |
| `Extract.FindValue` | amt/client.py:215-224 | A non-XML body fails to parse. Lookup fails exactly when no proper descendant of the root has tag `{ns}key`. Otherwise it returns that element's text. |
| `Extract.ReturnValue` | amt/client.py:227-236 | Succeeds exactly when the first `{ns}ReturnValue` below the root exists, has text, and that text converts. The value is the converted text, and lookup errors pass through unchanged. |
| `Extract.EmbeddedValueFound` | amt/client.py:215-224 | A value embedded under a known namespace and name, with no earlier match, is returned unchanged. |
| `Extract.EmbeddedReturnValue` | amt/client.py:227-236 | An integer written as the first matching ReturnValue is read back exactly. |
| `Extract.NamespaceAndRootExample` | amt/client.py:227-236 | A ReturnValue of 0 under namespace NS reads as 0. The same body queried under another namespace, or with the element as the root itself, is a missing element. |
| `Network.Net.constructor` | amt/client.py:100 | The stand-in starts with the given clock reading, no attempts, no POSTs and the given scripts. |
| `Network.Net.Connect` | amt/client.py:105-107 | One connect attempt yields the next scripted outcome, advances the clock by its duration, and records the host, port and per-attempt timeout dialled. |
| `Network.Net.Sleep` | amt/client.py:111 | The back-off advances only the clock. |
| `Network.Net.Post` | amt/client.py:119-123 | One POST yields the next scripted reply and counts one request. |
| `Reachability.AwakenOutcomes` | amt/client.py:100-115 | `AwakenRun` is the loop of lines 100-115 as a function of clock reading and attempt count. It returns normally only right after an accepted connect. A non-refusal error is raised only right after the attempt that produced it. All earlier attempts were refusals. AMTTimeout comes only with the clock at or past `start + timeout`. With a positive budget at least one attempt is made; with none, no attempt is made. |
| `Reachability.AwakenSucceedsOnceAccepting` | amt/client.py:103-111 | If n refusals, each followed by 500 ms, end before the deadline and attempt n is accepted, the loop returns right after attempt n. The clock then reads start + durations + n·500 ms. |
| `Reachability.AwakenTimesOutWhenAlwaysRefused` | amt/client.py:103-115 | Against a device that always refuses, the loop raises AMTTimeout with the clock at or past the deadline. |
| `Reachability.AwakenOvershoot` | amt/client.py:101-111 | If no attempt takes more than `limit` ms, the loop ends before `deadline + limit + 500` ms. |
| `AmtClient.Client.AwakenAmt` | amt/client.py:90-115 | The loop's outcome, final clock and attempt count are those of `AwakenRun` with deadline `start + timeout·1000`. It posts nothing, and every attempt dials the given host and port with the whole timeout as per-attempt timeout. |
| `AmtClient.Decide` | amt/client.py:124-135 | The result is 1 iff the status is not 200 and the body is XML; a non-200, non-XML body raises. A 200 with a falsy namespace gives 0. A 200 with a namespace gives 0 iff the ReturnValue is 0, no value iff it is another integer, and the extraction error otherwise. |
| `AmtClient.Client.Post` | amt/client.py:117-135 | Result and new network state are those of `PostRun`: `ExchangeRun` (the probe with the 16 s budget, then one POST of the payload if it succeeded), then `Decide` on the reply. Every connect attempt dials the client's `address:port` with the 16 s timeout. The request is logged once iff the probe succeeded and the POST went out. |
| `AmtClient.PostProbesThenPostsOnce` | amt/client.py:117-123 | Every post first makes at least one connect attempt. It then makes exactly one POST if the probe succeeded and none otherwise; in that case it raises the probe's AMTTimeout or socket error. There is no HTTP-level retry. |
| `AmtClient.UnvalidatedPostVerdicts` | amt/client.py:124-131 | Without a namespace, post never returns the no-value outcome, and a 200 reply gives 0. |
| `AmtClient.PowerChangeVerdicts` | amt/client.py:137-150 | A power change returns 0 iff the device answers 200 with ReturnValue 0 under CIM_PowerManagementService. It returns 1 iff the device answers another status with an XML body, and no value iff it answers 200 with a nonzero ReturnValue. |
| `AmtClient.Client.PowerOn` | amt/client.py:137-140 | Sends the power-state payload with token `on`, validated against CIM_PowerManagementService, and returns post's result. Every connect attempt dials the client's `address:port`. |
| `AmtClient.Client.PowerOff` | amt/client.py:142-145 | Same with token `off`, dialling only the client's `address:port`. |
| `AmtClient.Client.PowerCycle` | amt/client.py:147-150 | Same with token `reboot`, dialling only the client's `address:port`. |
| `AmtClient.Client.SetNextBoot` | amt/client.py:159-168 | Sends the change-boot-order payload for the device, then the enable-boot-config payload, both unvalidated, as `TwoPostsRun` says. The log grows by those requests, in that order, as far as they went out. Every connect attempt dials the client's `address:port`. |
| `AmtClient.Client.PxeNextBoot` | amt/client.py:152-157 | Behaves exactly as `SetNextBoot` with device `pxe`. |
| `AmtClient.TwoPostsSecondFollowsFirst` | amt/client.py:164-168 | `TwoPostsRun` is the two-post sequence of lines 164-168 and 198-201. The second request is attempted whenever the first post returns, whatever it returned. The operation returns normally iff neither post raised, and the POST count grows by the number of requests sent. |
| `AmtClient.SecondRequestDespiteFirstFailure` | amt/client.py:164-168 | A first request answered with status 500 returns 1 and still lets the second go out; a 200 for the second makes the operation return normally. |
| `AmtClient.Client.PowerStatus` | amt/client.py:170-182 | Probes, sends the CIM_AssociatedPowerManagementService query, and returns the PowerState text as `PowerStatusRun` says: the `_find_value` lookup on the body after the probe and one POST. Every connect attempt dials the client's `address:port`. |
| `AmtClient.PowerStatusIgnoresStatus` | amt/client.py:174-182 | Once the query is answered, the result is the PowerState lookup in the body, whatever the status code. |
| `AmtClient.RfbPassword` | amt/client.py:195-196 | The supplied password is used iff it is present with exactly 8 characters. Otherwise the result is the stored password's prefix of length min(8, length). The result has 8 characters iff the supplied one did or the stored one has at least 8. |
| `AmtClient.RfbPasswordExamples` | amt/client.py:184-196 | Stored `abcdefghij` with no or a 4-character override gives `abcdefgh`. An empty override falls back too, and an 8-character override is used as given. |
| `AmtClient.Client.EnableVnc` | amt/client.py:184-201 | Sends enable-remote-KVM with the chosen RFB password, then KVM-redirect, both unvalidated, as `TwoPostsRun` says. Every connect attempt dials the client's `address:port`. |
| `AmtClient.Client.Init` | amt/client.py:79-88 | Stores URI, address, port, username and password unchanged, with an empty log. |
| `AmtClient.Client.New` | amt/client.py:79-88 | Construction succeeds iff the protocol is `http` or `https`, with defaults `admin` and `http`. The client gets the URI, port, address, username and password unchanged and an empty log. |
| `AmtClient.AwakenAsWritten` | amt/client.py:103-108 | As written, with any budget left the first iteration raises AttributeError on `self.address` before connecting. |
| `AmtClient.AwakenAsWrittenNeverConnects` | amt/client.py:79-108 | For the attributes `__init__` sets, every probe with a positive timeout fails with AttributeError, with no connect attempt and no clock change. |

## Findings

| source | as written | input that shows it | evidently intended | confidence | as-written member | corrected member |
|---|---|---|---|---|---|---|
| amt/client.py:106 | `_awaken_amt` connects to `(self.address, self.port)`, but `__init__` (amt/client.py:79-88) sets only `uri`, `username` and `password`. | `Client('10.0.0.5', 'pw').power_on()`: the first loop iteration raises AttributeError, so no request is ever sent. | The client keeps the address and the resolved port, and the probe connects to them. | high, not executed | `AmtClient.AwakenAsWrittenNeverConnects` | `AmtClient.Client.AwakenAmt` |

In the corrected model, `Client.New` records the address and the port. `Post`,
`PowerStatus` and every operation built on `Post` probe `address:port` through `AwakenAmt`,
and their contracts say that every connect attempt they make dials exactly that address
and port.

## Left out

- Real sockets, `time.sleep` and `datetime.now()`: replaced by the `Net` stand-in. Connect
  outcomes and their durations are scripted per attempt; the clock is in integer milliseconds.
- Timeouts are whole seconds; Python also accepts fractional ones.
- The clock does not advance during an HTTP exchange. Only connect attempts and back-offs take time.
- The throwaway `socket.socket` opened around each attempt, and closing the connection the
  probe creates, are not modelled.
- `requests.post`, its headers and HTTP Digest authentication: replaced by the scripted reply to
  the n-th POST for a given payload. The username and password are stored but not used in
  authentication. A failing transport is the single `Broken` reply.
- XML text parsing: a body is a parsed element tree or unparseable. Attributes, tails and
  mixed content are not modelled.
- The text `pp_xml` renders, and every `print` in `post`: only whether pretty-printing raises is kept.
- `vnc_status`: it only returns the pretty-printed body.
- The envelopes built by the external `wsman` module: a payload is the builder's name and arguments.
- The CIM schema constants for the boot service, computer system, boot configuration and
  boot source: the client declares them but never uses them.
- The clock never goes back: a connect attempt takes a non-negative number of milliseconds.
  `datetime.now()` is a wall clock that can be set back; then the loop may run longer than
  the model allows, and the termination of `AwakenRun` and the bound of `AwakenOvershoot`
  hold only for a clock that does not go back.
- The duration of a connect attempt is not bounded by the timeout it was given. Such an
  attempt would raise `socket.timeout` (errno None) rather than connect; the script
  may give it any outcome. `AwakenOvershoot` takes the per-attempt bound as a hypothesis.
  That the timeout applies to each resolved address of the host is not modelled either.
- Numerals.ParseInt: accepts only an optional `+`/`-` followed by ASCII digits. Python's
  `int()` also accepts surrounding whitespace, underscores between digits and non-ASCII digits.
