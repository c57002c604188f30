# TellDaddy mail transports in Dafny

TellDaddy reports by e-mail. Its mail layer builds a message and then hands
it to one of two transports:

- an SMTP server, reached with `smtplib`, with an optional STARTTLS upgrade
  and an optional login whose password comes from the system keyring;
- a local `sendmail` binary, which gets the message on its standard input.

Two helpers sit beside the transports: one asks whether a password is
stored, and one stores a password the user types in. This project models
the message builders, both transports and the two helpers. It proves what
each one does on every path through its own code. The failures it covers
are the ones the SMTP connection and the process start raise, and the
missing-password and missing-module errors. The library calls listed under
"## Left out" as returning normally are assumed to do so.

Files (one module each):

- `wrappers.dfy` (`Wrappers`): the `Option` type, which stands for Python's `None`.
- `messages.dfy` (`Messages`): the result of `msg_plain` and `msg_html` as
  a value (content type, header map, parts). `Preferred` says which part a
  reader displays: the last alternative it understands, following section
  5.1.4 of RFC 2046. The lemmas state which body a reader sees.
- `credentials.dfy` (`Credentials`): the keyring is a `Keyring` object
  whose store maps (service, account) to a password. A null `Keyring?`
  stands for the failed `import keyring`. `HavePassword` and `SetPassword`
  model `have_password` and `set_password`.
- `smtp.dfy` (`Smtp`): the `SMTPMailer` class and the `smtplib` connection.
  The connection is observed through the calls it receives, recorded as a
  trace of `Event`s. Which calls raise a library exception is a parameter
  (`rejected`); a call that raises is recorded and ends the run, because
  `send` catches nothing. `SmtpRun` specifies `send`. `Intended` gives the
  calls `send` means to make, and `Execute` makes them until the first one
  that raises. `SmtpMailer.Send` is the step-by-step method, proved equal
  to `SmtpRun`. The lemmas state the protocol's order, when login happens,
  and when exactly one transmission and a quit happen.
- `sendmail.dfy` (`Sendmail`): the `SendmailMailer` class. The child
  process is a parameter: it either fails to start, or exits with a return
  code and some standard error text.

What the model takes as parameters, instead of modelling them:

- `asString`: the serialisation `msg.as_string()`.
- `date`: the value of `email.utils.formatdate()`.
- `rejected`: which network calls raise.
- `child`: how the sendmail process behaves.
- `entered`: the password typed at the `getpass` prompt.

## Model

| member | source | states |
|---|---|---|
| Messages.MsgPlain | Library/TellDaddyThroughMail.py:22-29 | The message is `text/plain` in UTF-8 with the body as its only payload. The headers the builder assigns are exactly Subject, From, To and Date; they hold the arguments and the date. |
| Messages.MsgHtml | Library/TellDaddyThroughMail.py:31-41 | The message is `multipart/alternative` and carries exactly the four headers the builder assigns. It has two UTF-8 parts in order: the plain text first, then the HTML. |
| Messages.Preferred | Library/TellDaddyThroughMail.py:32 | Of a list of alternatives, the displayed part is the last one whose type the reader understands. It is None exactly when the reader understands none of them. |
| Messages.PlainRoundTrip | Library/TellDaddyThroughMail.py:22-29 | A reader that understands plain text sees exactly the body passed to `msg_plain`. Any other reader sees nothing. |
| Messages.HtmlAlternativePreference | Library/TellDaddyThroughMail.py:31-41 | The alternative message shows the HTML body if the reader understands HTML. Otherwise it shows the plain body if the reader understands plain text, and otherwise nothing. |
| Messages.SameEnvelope | Library/TellDaddyThroughMail.py:22-41 | Given the same sender, recipient, subject and date, both builders produce the same headers. |
| Credentials.Keyring.SetPassword | Library/TellDaddyThroughMail.py:93 | Storing a password replaces the entry under (service, account) and changes no other entry. |
| Credentials.HavePassword | Library/TellDaddyThroughMail.py:83-84 | True exactly when some password, the empty one included, is stored under (server, address). |
| Credentials.SetPassword | Library/TellDaddyThroughMail.py:87-93 | With no keyring module it ends in ImportError and changes nothing. Otherwise it stores the entered password under (server, address), after which `HavePassword` holds and every other entry is unchanged. |
| Smtp.SmtpMailer.constructor | Library/TellDaddyThroughMail.py:45-50 | The settings are the arguments, the user given first. |
| Smtp.SmtpConnection.constructor | Library/TellDaddyThroughMail.py:53 | Creating the connection connects at once. The connect is the first call recorded, and it raises when it is rejected. |
| Smtp.SmtpConnection.Call | Library/TellDaddyThroughMail.py:54-66 | Each call on the connection is appended to the trace, and it raises exactly when it is rejected. |
| Smtp.SmtpMailer.Send | Library/TellDaddyThroughMail.py:52-66 | The outcome and the trace of calls are exactly `SmtpRun` of the settings, the keyring's contents, the message, its serialisation and the rejected calls. |
| Smtp.ExecutePrefix | Library/TellDaddyThroughMail.py:52-66 | The calls made are a prefix of the intended calls. |
| Smtp.ExecuteComplete | Library/TellDaddyThroughMail.py:52-66 | When no intended call raises, every intended call is made and the run ends as intended. |
| Smtp.ExecuteStops | Library/TellDaddyThroughMail.py:52-66 | When some call raises, the run ends with the exception of the last call made. That call was rejected and every earlier one went through. |
| Smtp.StopsAtFirstRejected | Library/TellDaddyThroughMail.py:52-66 | If the first intended call that raises is call i, the run makes calls 0 to i and raises at call i. |
| Smtp.IntendedShape | Library/TellDaddyThroughMail.py:53-65 | The intended calls begin with connect, then ehlo, then starttls exactly when TLS is set. At most one login follows, and only with `auth`, the keyring present and a stored password. Only login, sendmail and quit come after the opening. |
| Smtp.SmtpRunFacts | Library/TellDaddyThroughMail.py:52-66 | The prefix, complete-run and stop facts, stated for the run of `send`. |
| Smtp.TransmissionsConcat | Library/TellDaddyThroughMail.py:65 | The number of sendmail calls in a concatenation is the sum over its parts. |
| Smtp.TransmissionsPrefix | Library/TellDaddyThroughMail.py:65 | A prefix of a trace has no more sendmail calls than the whole trace. |
| Smtp.NoTransmissions | Library/TellDaddyThroughMail.py:65 | A trace without sendmail calls counts zero transmissions. |
| Smtp.IntendedTransmissions | Library/TellDaddyThroughMail.py:59-65 | The intended calls hold one sendmail when they are meant to end normally, and none when they end in the missing-password ValueError. |
| Smtp.OpensWithConnectThenEhlo | Library/TellDaddyThroughMail.py:53-54 | Every run starts with the connect to the configured server and port. Ehlo is the second call whenever there is one, and there is one whenever the connect goes through. |
| Smtp.StartTlsRightAfterEhlo | Library/TellDaddyThroughMail.py:54-57 | Starttls appears only with TLS set, and only right after ehlo. With TLS set it comes before any login, and it is made whenever connect and ehlo go through. |
| Smtp.LoginOnlyWithStoredPassword | Library/TellDaddyThroughMail.py:59-63 | Every login needs `auth`, the keyring present, the configured user and the password stored under exactly (server, user). Conversely, with all of these and an opening that goes through, the login is made. |
| Smtp.MissingPasswordFails | Library/TellDaddyThroughMail.py:59-62 | With `auth`, the keyring present and no stored password there is no login, no transmission and no quit, and the run never ends normally. If the opening goes through, the run ends in ValueError naming the server and user, right after the opening. |
| Smtp.NoKeyringSkipsLogin | Library/TellDaddyThroughMail.py:59 | Without `auth`, or without the keyring module, there is never a login or a ValueError. If nothing raises, the message is delivered. |
| Smtp.DeliveredEndsWithSendThenQuit | Library/TellDaddyThroughMail.py:65-66 | A run that ends normally made no rejected call and exactly one transmission. It ends with a sendmail from the `From` header to the single `To` recipient carrying the serialised message, followed by quit. |
| Smtp.AtMostOneTransmission | Library/TellDaddyThroughMail.py:65 | No run transmits the message more than once. |
| Smtp.QuitOnlyAfterTransmission | Library/TellDaddyThroughMail.py:65-66 | Quit is made only in a run that ends normally or raises at the quit itself. A run whose sendmail raises never quits. |
| Smtp.QuitIsLast | Library/TellDaddyThroughMail.py:65-66 | Quit can only be the last intended call, and only in a script meant to end normally. |
| Smtp.ReliableServer | Library/TellDaddyThroughMail.py:52-66 | When no call raises, the run ends in ValueError exactly when the password is missing, and is delivered otherwise. |
| Smtp.BuiltMessageEnvelope | Library/TellDaddyThroughMail.py:24-26 | For a message from either builder, the transmission goes from the given sender address to the given recipient address. |
| Smtp.RunWhenConnectRaises | Library/TellDaddyThroughMail.py:53 | When the connect raises, the run is that one call and its exception. |
| Smtp.RunWhenEhloRaises | Library/TellDaddyThroughMail.py:54 | When ehlo raises after a connect that went through, the run is the connect, then ehlo and its exception. |
| Smtp.RunWhenStartTlsRaises | Library/TellDaddyThroughMail.py:56-57 | When starttls raises, the run is the opening, ending in its exception. |
| Smtp.RunWhenPasswordMissing | Library/TellDaddyThroughMail.py:59-62 | With the password missing and an opening that goes through, the run is the opening, ending in ValueError. |
| Smtp.RunWhenLoginRaises | Library/TellDaddyThroughMail.py:63 | When the login raises, the run is the opening, then the login and its exception. |
| Smtp.RunWhenTransmissionRaises | Library/TellDaddyThroughMail.py:65 | When sendmail raises, the run stops there, with no quit. |
| Smtp.RunWhenQuitRaises | Library/TellDaddyThroughMail.py:66 | When only the quit raises, the message was sent and the run ends in the quit's exception. |
| Smtp.RunWhenNothingRaises | Library/TellDaddyThroughMail.py:52-66 | When no call raises and the password is not missing, all intended calls are made and the message is delivered. |
| Sendmail.SendmailMailer.constructor | Library/TellDaddyThroughMail.py:70-71 | The mailer keeps the given sendmail path. |
| Sendmail.SendmailMailer.Send | Library/TellDaddyThroughMail.py:73-80 | The program runs as `path -t -oi`. If the process starts, it gets the serialised message on standard input and `send` returns; if it fails to start, the exception propagates and nothing is written. An error is logged exactly when the return code is nonzero, and the entry holds no standard output and the captured standard error. |

## Left out

- Networking, TLS, process spawning and the keyring backends are not
  modelled. They are replaced by the calls recorded on the connection, the
  `rejected` set, the `child` parameter and the `Keyring` store.
- Which exception a library call raises is not modelled; the model only
  records which call raised it. Only the six calls on the SMTP connection
  (connect, ehlo, starttls, login, sendmail, quit) and the start of the
  sendmail process can raise.
- These library calls are assumed to return normally:
  - `keyring.get_password` in `send` and `have_password` (lines 60 and 84):
    `Keyring.GetPassword` is total. A keyring module with no usable backend,
    whose lookup raises, is therefore not modelled.
  - `getpass.getpass` and `keyring.set_password` in `set_password` (lines
    92-93): `SetPassword` always ends in Stored when the module is present.
  - `msg.as_string()` (lines 65 and 78): `asString` is a total function.
  - `p.communicate` (line 78).
- Headers that the MIME classes set themselves are not in `headers`. These
  are `Content-Type`, `MIME-Version` and, for the text part,
  `Content-Transfer-Encoding`. `Content-Type` is `contentType` together
  with the part's `charset`; the other two are dropped. So `Header(m,
  "MIME-Version")` is None where `msg['MIME-Version']` is `'1.0'`. No
  modelled operation reads these headers.
- Serialisation (`as_string`), header encoding and the date format are
  parameters.
- The message's header map ignores the order of headers and treats names as
  case-sensitive. The builders set each header once, so no lookup depends on
  either.
- The builders are module functions rather than methods, because they use
  nothing of the mailer they are called on.
- `Mailer.send` raises NotImplementedError, and the two transports override
  it. That dispatch is not modelled: each transport's `Send` is a method of
  its own class.
- `set_password`'s prompt text, and the text of the logged error and of the
  ValueError message, are not modelled. The ValueError keeps the server and
  user it names.
- The application entry point (`telldaddy.py`) and the code that chooses a
  transport are not part of this model.

Facts about the code that the model keeps:

- `quit` is not in a `finally` (lines 65-66), so a failing `sendmail`
  leaves the session without a quit.
- With `auth` set and the keyring module missing, `send` skips the login
  silently (line 59). It does not fail.
- `have_password` counts any stored value, the empty string included,
  because it tests `is not None` (line 84).
- `have_password` calls `keyring.get_password` without checking that the
  import succeeded (line 84), so the model's `HavePassword` takes a present
  keyring.
