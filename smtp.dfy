/**
 * `SMTPMailer`: its constructor and its `send`, which drives an SMTP
 * connection through ehlo, an optional starttls, an optional login, one
 * sendmail and quit.
 *
 * The connection is observed through the calls it receives: each call is an
 * event appended to the connection's trace. The network and `smtplib` are not
 * modelled; which calls raise is a parameter (`rejected`). A call that raises
 * is recorded and ends the run, since `send` handles no exception.
 *
 * `SmtpRun` is the specification of `send`: the calls `send` means to make
 * (`Intended`), executed until the first one that raises (`Execute`).
 * `SmtpMailer.Send` is the step-by-step method, proved to produce exactly
 * that run, and the lemmas at the end state the protocol's promises about it.
 */
module Smtp {
  import opened Wrappers
  import opened Messages
  import opened Credentials

  /** The calls made on an `smtplib.SMTP` connection. */
  datatype Event =
    | Connect(host: string, port: int)
    | Ehlo
    | StartTls
    | Login(user: string, password: string)
    | SendMail(sender: Option<string>, recipients: seq<Option<string>>, data: string)
    | Quit

  /** How `send` ends: normally, with the ValueError for a missing password, or with a library exception. */
  datatype Outcome =
    | Delivered
    | ValueError(server: string, user: string)
    | Raised(call: Event)

  datatype Run = Run(outcome: Outcome, trace: seq<Event>)

  /** The fields of an `SMTPMailer`. */
  datatype Settings = Settings(server: string, user: string, port: int, tls: bool, auth: bool)

  /** The calls `send` means to make, and how it ends if none of them raises. */
  datatype Script = Script(calls: seq<Event>, ending: Outcome)

  predicate NoneRejected(calls: seq<Event>, rejected: set<Event>)
  {
    forall e :: e in calls ==> e !in rejected
  }

  /** Connecting, greeting, and upgrading to TLS when it is configured. */
  function Opening(cfg: Settings): seq<Event>
  {
    [Connect(cfg.server, cfg.port), Ehlo] + (if cfg.tls then [StartTls] else [])
  }

  /** One transmission to the single `To` recipient from the `From` header, then quit. */
  function Closing(msg: Message, data: string): seq<Event>
  {
    [SendMail(Header(msg, "From"), [Header(msg, "To")], data), Quit]
  }

  /** `auth` is set, the keyring module is present and it holds no password for (server, user). */
  predicate PasswordMissing(cfg: Settings, keyring: Option<map<Key, string>>)
  {
    cfg.auth && keyring.Some? && Lookup(keyring.value, (cfg.server, cfg.user)).None?
  }

  /**
   * The login `send` makes: with `auth` set and the keyring module present,
   * one login with the password stored under exactly (server, user); with
   * `auth` set and no keyring module, none, as without `auth`.
   */
  function LoginCalls(cfg: Settings, keyring: Option<map<Key, string>>): seq<Event>
  {
    if cfg.auth && keyring.Some? then
      match Lookup(keyring.value, (cfg.server, cfg.user))
      case None => []
      case Some(pw) => [Login(cfg.user, pw)]
    else []
  }

  /** The intended calls; a missing password ends the attempt with ValueError before any login. */
  function Intended(cfg: Settings, keyring: Option<map<Key, string>>, msg: Message, data: string): (s: Script)
    ensures !s.ending.Raised?
  {
    if PasswordMissing(cfg, keyring) then Script(Opening(cfg), ValueError(cfg.server, cfg.user))
    else Script(Opening(cfg) + LoginCalls(cfg, keyring) + Closing(msg, data), Delivered)
  }

  /** Makes `calls` in order until one raises, which ends the run with that call's exception. */
  function Execute(calls: seq<Event>, ending: Outcome, rejected: set<Event>): Run
    decreases |calls|
  {
    if calls == [] then Run(ending, [])
    else if calls[0] in rejected then Run(Raised(calls[0]), [calls[0]])
    else
      var rest := Execute(calls[1..], ending, rejected);
      Run(rest.outcome, [calls[0]] + rest.trace)
  }

  /** The trace of a run is a prefix of the calls. */
  lemma {:induction false} ExecutePrefix(calls: seq<Event>, ending: Outcome, rejected: set<Event>)
    ensures var r := Execute(calls, ending, rejected);
            |r.trace| <= |calls| && r.trace == calls[..|r.trace|]
    decreases |calls|
  {
    if calls != [] && calls[0] !in rejected {
      var rest := Execute(calls[1..], ending, rejected);
      ExecutePrefix(calls[1..], ending, rejected);
      assert [calls[0]] + calls[1..][..|rest.trace|] == calls[..|rest.trace| + 1];
    }
  }

  /** When no call is rejected, the run makes all of them and ends as intended. */
  lemma {:induction false} ExecuteComplete(calls: seq<Event>, ending: Outcome, rejected: set<Event>)
    requires NoneRejected(calls, rejected)
    ensures Execute(calls, ending, rejected) == Run(ending, calls)
    decreases |calls|
  {
    if calls != [] {
      assert calls[0] in calls;
      assert forall e :: e in calls[1..] ==> e in calls;
      ExecuteComplete(calls[1..], ending, rejected);
    }
  }

  /**
   * When some call is rejected, the run ends with the exception of its last
   * call, which was rejected, after calls that all went through.
   */
  lemma {:induction false} ExecuteStops(calls: seq<Event>, ending: Outcome, rejected: set<Event>)
    requires !NoneRejected(calls, rejected)
    ensures var r := Execute(calls, ending, rejected);
            && r.trace != []
            && r.outcome == Raised(r.trace[|r.trace| - 1])
            && r.outcome.call in rejected
            && NoneRejected(r.trace[..|r.trace| - 1], rejected)
    decreases |calls|
  {
    if calls[0] !in rejected {
      var rest := Execute(calls[1..], ending, rejected);
      assert forall e :: e in calls ==> e == calls[0] || e in calls[1..];
      ExecuteStops(calls[1..], ending, rejected);
      assert ([calls[0]] + rest.trace)[..|rest.trace|] == [calls[0]] + rest.trace[..|rest.trace| - 1];
    } else {
      assert [calls[0]][..0] == [];
    }
  }

  /** The pieces of the intended calls, element by element. */
  lemma IntendedShape(cfg: Settings, keyring: Option<map<Key, string>>, msg: Message, data: string)
    ensures var o := Opening(cfg);
            && |o| == (if cfg.tls then 3 else 2)
            && o[0] == Connect(cfg.server, cfg.port) && o[1] == Ehlo && (cfg.tls ==> o[2] == StartTls)
    ensures var l := LoginCalls(cfg, keyring);
            && |l| <= 1
            && (l != [] <==> cfg.auth && keyring.Some? && Lookup(keyring.value, (cfg.server, cfg.user)).Some?)
            && (l != [] ==> l[0] == Login(cfg.user, Lookup(keyring.value, (cfg.server, cfg.user)).value))
    ensures var s, o := Intended(cfg, keyring, msg, data), Opening(cfg);
            && |o| <= |s.calls| && s.calls[..|o|] == o
            && forall i :: |o| <= i < |s.calls| ==> s.calls[i].Login? || s.calls[i].SendMail? || s.calls[i].Quit?
  {
  }

  /** The specification of `send`. */
  function SmtpRun(cfg: Settings, keyring: Option<map<Key, string>>, msg: Message, data: string,
                   rejected: set<Event>): Run
  {
    var s := Intended(cfg, keyring, msg, data);
    Execute(s.calls, s.ending, rejected)
  }

  /** The facts about a run of `send` that the lemmas below start from. */
  lemma SmtpRunFacts(cfg: Settings, keyring: Option<map<Key, string>>, msg: Message, data: string,
                     rejected: set<Event>)
    ensures var s, r := Intended(cfg, keyring, msg, data), SmtpRun(cfg, keyring, msg, data, rejected);
            && |r.trace| <= |s.calls| && r.trace == s.calls[..|r.trace|]
            && (NoneRejected(s.calls, rejected) ==> r == Run(s.ending, s.calls))
            && (!NoneRejected(s.calls, rejected) ==>
                  && r.trace != []
                  && r.outcome == Raised(r.trace[|r.trace| - 1])
                  && r.outcome.call in rejected
                  && NoneRejected(r.trace[..|r.trace| - 1], rejected))
  {
    var s := Intended(cfg, keyring, msg, data);
    ExecutePrefix(s.calls, s.ending, rejected);
    if NoneRejected(s.calls, rejected) {
      ExecuteComplete(s.calls, s.ending, rejected);
    } else {
      ExecuteStops(s.calls, s.ending, rejected);
    }
  }

  /** A run stops at the first rejected call when all calls before it went through. */
  lemma {:induction false} StopsAtFirstRejected(calls: seq<Event>, ending: Outcome, rejected: set<Event>, i: nat)
    requires i < |calls| && calls[i] in rejected && NoneRejected(calls[..i], rejected)
    ensures Execute(calls, ending, rejected) == Run(Raised(calls[i]), calls[..i + 1])
    decreases i
  {
    if i > 0 {
      assert calls[0] in calls[..i];
      assert calls[1..][..i - 1] == calls[1..i];
      assert forall e :: e in calls[1..i] ==> e in calls[..i];
      StopsAtFirstRejected(calls[1..], ending, rejected, i - 1);
      assert [calls[0]] + calls[1..][..i] == calls[..i + 1];
    }
  }

  /** The number of messages transmitted in a trace. */
  function Transmissions(t: seq<Event>): nat
  {
    if t == [] then 0 else (if t[0].SendMail? then 1 else 0) + Transmissions(t[1..])
  }

  lemma {:induction false} TransmissionsConcat(a: seq<Event>, b: seq<Event>)
    ensures Transmissions(a + b) == Transmissions(a) + Transmissions(b)
    decreases |a|
  {
    if a == [] {
      assert a + b == b;
    } else {
      assert (a + b)[1..] == a[1..] + b;
      TransmissionsConcat(a[1..], b);
    }
  }

  /** A prefix of a trace transmits no more than the whole trace. */
  lemma {:induction false} TransmissionsPrefix(t: seq<Event>, k: nat)
    requires k <= |t|
    ensures Transmissions(t[..k]) <= Transmissions(t)
  {
    assert t == t[..k] + t[k..];
    TransmissionsConcat(t[..k], t[k..]);
  }

  // ---------------------------------------------------------------------
  // What `send` promises, stated about its specification
  // ---------------------------------------------------------------------

  /** Every run starts by connecting to the configured server and port, then says EHLO. */
  lemma OpensWithConnectThenEhlo(cfg: Settings, keyring: Option<map<Key, string>>, msg: Message, data: string,
                                 rejected: set<Event>)
    ensures var t := SmtpRun(cfg, keyring, msg, data, rejected).trace;
            && t != [] && t[0] == Connect(cfg.server, cfg.port)
            && (|t| >= 2 ==> t[1] == Ehlo)
            && (Connect(cfg.server, cfg.port) !in rejected ==> |t| >= 2)
  {
    IntendedShape(cfg, keyring, msg, data);
    SmtpRunFacts(cfg, keyring, msg, data, rejected);
    var s := Intended(cfg, keyring, msg, data);
    var t := SmtpRun(cfg, keyring, msg, data, rejected).trace;
    assert s.calls[0] == Connect(cfg.server, cfg.port) by { assert s.calls[..|Opening(cfg)|][0] == s.calls[0]; }
    if |t| >= 2 {
      assert t[1] == s.calls[1] by { assert s.calls[..|Opening(cfg)|][1] == s.calls[1]; }
    }
  }

  /**
   * STARTTLS is sent only when `tls` is set, and then right after EHLO, so
   * before any login. With `tls` set and the connection and greeting going
   * through, it is sent.
   */
  lemma StartTlsRightAfterEhlo(cfg: Settings, keyring: Option<map<Key, string>>, msg: Message, data: string,
                               rejected: set<Event>)
    ensures var t := SmtpRun(cfg, keyring, msg, data, rejected).trace;
            forall i :: 0 <= i < |t| && t[i] == StartTls ==> cfg.tls && i == 2
    ensures var t := SmtpRun(cfg, keyring, msg, data, rejected).trace;
            cfg.tls ==> forall j :: 0 <= j < |t| && t[j].Login? ==> 2 < j && t[2] == StartTls
    ensures var t := SmtpRun(cfg, keyring, msg, data, rejected).trace;
            cfg.tls && Connect(cfg.server, cfg.port) !in rejected && Ehlo !in rejected ==> |t| >= 3 && t[2] == StartTls
  {
    IntendedShape(cfg, keyring, msg, data);
    SmtpRunFacts(cfg, keyring, msg, data, rejected);
    var s := Intended(cfg, keyring, msg, data);
    var o := Opening(cfg);
    var t := SmtpRun(cfg, keyring, msg, data, rejected).trace;
    assert t == s.calls[..|t|];
    assert forall i :: 0 <= i < |o| ==> s.calls[i] == o[i] by {
      forall i | 0 <= i < |o| ensures s.calls[i] == o[i] { assert s.calls[..|o|][i] == s.calls[i]; }
    }
    assert forall i :: 0 <= i < |t| ==> t[i] == s.calls[i];
  }

  /**
   * A login happens only with `auth` set, the keyring module present and a
   * password stored under exactly (server, user); it uses that user and that
   * password. Conversely, in that situation, once TLS (if any) went through,
   * the login is attempted.
   */
  lemma LoginOnlyWithStoredPassword(cfg: Settings, keyring: Option<map<Key, string>>, msg: Message, data: string,
                                    rejected: set<Event>)
    ensures var t := SmtpRun(cfg, keyring, msg, data, rejected).trace;
            forall e :: e in t && e.Login? ==>
              && cfg.auth && keyring.Some?
              && e.user == cfg.user
              && Lookup(keyring.value, (cfg.server, cfg.user)) == Some(e.password)
    ensures var t := SmtpRun(cfg, keyring, msg, data, rejected).trace;
            cfg.auth && keyring.Some? && Lookup(keyring.value, (cfg.server, cfg.user)).Some? &&
            NoneRejected(Opening(cfg), rejected) ==>
              Login(cfg.user, Lookup(keyring.value, (cfg.server, cfg.user)).value) in t
  {
    IntendedShape(cfg, keyring, msg, data);
    SmtpRunFacts(cfg, keyring, msg, data, rejected);
    var s := Intended(cfg, keyring, msg, data);
    var o := Opening(cfg);
    var t := SmtpRun(cfg, keyring, msg, data, rejected).trace;
    assert t == s.calls[..|t|];
    forall e | e in t && e.Login?
      ensures cfg.auth && keyring.Some? && e.user == cfg.user
      ensures Lookup(keyring.value, (cfg.server, cfg.user)) == Some(e.password)
    {
      assert e in s.calls;
    }
    if cfg.auth && keyring.Some? && Lookup(keyring.value, (cfg.server, cfg.user)).Some? &&
       NoneRejected(o, rejected) {
      var pw := Lookup(keyring.value, (cfg.server, cfg.user)).value;
      var login := Login(cfg.user, pw);
      assert s.calls[|o|] == login;
      assert t[|o|] == login;
    }
  }

  /**
   * With `auth` set, the keyring present and no password for (server, user),
   * `send` never logs in, transmits or quits; once the opening calls went
   * through, it fails with the ValueError naming that server and user.
   */
  lemma MissingPasswordFails(cfg: Settings, keyring: Option<map<Key, string>>, msg: Message, data: string,
                             rejected: set<Event>)
    requires cfg.auth && keyring.Some? && Lookup(keyring.value, (cfg.server, cfg.user)).None?
    ensures var r := SmtpRun(cfg, keyring, msg, data, rejected);
            && (forall e :: e in r.trace ==> !e.Login? && !e.SendMail? && !e.Quit?)
            && r.outcome != Delivered
            && (NoneRejected(Opening(cfg), rejected) ==>
                  r == Run(ValueError(cfg.server, cfg.user), Opening(cfg)))
  {
    IntendedShape(cfg, keyring, msg, data);
    SmtpRunFacts(cfg, keyring, msg, data, rejected);
  }

  /**
   * When `auth` is unset, or set while the keyring module is missing, no
   * login is attempted and the missing-password error cannot occur: the
   * login is skipped, not failed.
   */
  lemma NoKeyringSkipsLogin(cfg: Settings, keyring: Option<map<Key, string>>, msg: Message, data: string,
                            rejected: set<Event>)
    requires !cfg.auth || keyring.None?
    ensures var r := SmtpRun(cfg, keyring, msg, data, rejected);
            && (forall e :: e in r.trace ==> !e.Login?)
            && !r.outcome.ValueError?
            && (NoneRejected(r.trace, rejected) ==> r.outcome == Delivered)
  {
    IntendedShape(cfg, keyring, msg, data);
    SmtpRunFacts(cfg, keyring, msg, data, rejected);
    var s := Intended(cfg, keyring, msg, data);
    var t := SmtpRun(cfg, keyring, msg, data, rejected).trace;
    assert t == s.calls[..|t|];
    forall e | e in t ensures !e.Login? {
      assert e in s.calls;
    }
  }

  /** A trace with no transmission in it counts none. */
  lemma {:induction false} NoTransmissions(t: seq<Event>)
    requires forall e :: e in t ==> !e.SendMail?
    ensures Transmissions(t) == 0
    decreases |t|
  {
    if t != [] {
      assert t[0] in t;
      assert forall e :: e in t[1..] ==> e in t;
      NoTransmissions(t[1..]);
    }
  }

  /** The intended calls transmit once when they end in delivery, and not at all otherwise. */
  lemma IntendedTransmissions(cfg: Settings, keyring: Option<map<Key, string>>, msg: Message, data: string)
    ensures var s := Intended(cfg, keyring, msg, data);
            Transmissions(s.calls) == if s.ending == Delivered then 1 else 0
  {
    IntendedShape(cfg, keyring, msg, data);
    var s := Intended(cfg, keyring, msg, data);
    var o, c := Opening(cfg), Closing(msg, data);
    NoTransmissions(o);
    assert Transmissions(c) == 1 by {
      assert c[0].SendMail? && c[1..] == [Quit];
      NoTransmissions(c[1..]);
    }
    if !PasswordMissing(cfg, keyring) {
      var pre := o + LoginCalls(cfg, keyring);
      assert s.calls == pre + c;
      NoTransmissions(pre);
      TransmissionsConcat(pre, c);
    }
  }

  /**
   * A delivered message was transmitted exactly once, from the `From`
   * header to the single recipient in the `To` header with the serialized
   * message as data, and the session then quit; nothing was rejected.
   */
  lemma DeliveredEndsWithSendThenQuit(cfg: Settings, keyring: Option<map<Key, string>>, msg: Message, data: string,
                                      rejected: set<Event>)
    requires SmtpRun(cfg, keyring, msg, data, rejected).outcome == Delivered
    ensures var t := SmtpRun(cfg, keyring, msg, data, rejected).trace;
            && |t| >= 2
            && t[|t| - 2] == SendMail(Header(msg, "From"), [Header(msg, "To")], data)
            && t[|t| - 1] == Quit
            && Transmissions(t) == 1
            && NoneRejected(t, rejected)
  {
    IntendedShape(cfg, keyring, msg, data);
    SmtpRunFacts(cfg, keyring, msg, data, rejected);
    IntendedTransmissions(cfg, keyring, msg, data);
  }

  /** `send` transmits at most once, whatever happens. */
  lemma AtMostOneTransmission(cfg: Settings, keyring: Option<map<Key, string>>, msg: Message, data: string,
                              rejected: set<Event>)
    ensures Transmissions(SmtpRun(cfg, keyring, msg, data, rejected).trace) <= 1
  {
    var s := Intended(cfg, keyring, msg, data);
    SmtpRunFacts(cfg, keyring, msg, data, rejected);
    IntendedTransmissions(cfg, keyring, msg, data);
    TransmissionsPrefix(s.calls, |SmtpRun(cfg, keyring, msg, data, rejected).trace|);
  }

  /**
   * QUIT is not guarded by a `finally`: it is sent only after a successful
   * transmission, so a transmission that raises leaves the session unclosed.
   */
  lemma QuitOnlyAfterTransmission(cfg: Settings, keyring: Option<map<Key, string>>, msg: Message, data: string,
                                  rejected: set<Event>)
    ensures var r := SmtpRun(cfg, keyring, msg, data, rejected);
            Quit in r.trace ==> r.outcome == Delivered || r.outcome == Raised(Quit)
    ensures var r := SmtpRun(cfg, keyring, msg, data, rejected);
            r.outcome.Raised? && r.outcome.call.SendMail? ==> Quit !in r.trace
  {
    SmtpRunFacts(cfg, keyring, msg, data, rejected);
    var s := Intended(cfg, keyring, msg, data);
    var r := SmtpRun(cfg, keyring, msg, data, rejected);
    if Quit in r.trace {
      var i :| 0 <= i < |r.trace| && r.trace[i] == Quit;
      assert s.calls[i] == Quit;
      QuitIsLast(cfg, keyring, msg, data, i);
      assert |r.trace| == |s.calls|;
    }
  }

  /** QUIT is intended only as the last call of a delivery. */
  lemma QuitIsLast(cfg: Settings, keyring: Option<map<Key, string>>, msg: Message, data: string, i: nat)
    requires var s := Intended(cfg, keyring, msg, data); i < |s.calls| && s.calls[i] == Quit
    ensures var s := Intended(cfg, keyring, msg, data); i == |s.calls| - 1 && s.ending == Delivered
  {
    var s, o, l, c := Intended(cfg, keyring, msg, data), Opening(cfg), LoginCalls(cfg, keyring), Closing(msg, data);
    IntendedShape(cfg, keyring, msg, data);
    assert !PasswordMissing(cfg, keyring);
    assert s.calls == (o + l) + c;
    assert forall j :: 0 <= j < |o + l| ==> (o + l)[j] != Quit;
  }

  /**
   * When no call raises, `send` ends as the configuration dictates: the
   * missing-password error when authentication is required and impossible,
   * delivery otherwise.
   */
  lemma ReliableServer(cfg: Settings, keyring: Option<map<Key, string>>, msg: Message, data: string)
    ensures SmtpRun(cfg, keyring, msg, data, {}).outcome ==
              if cfg.auth && keyring.Some? && Lookup(keyring.value, (cfg.server, cfg.user)).None?
              then ValueError(cfg.server, cfg.user) else Delivered
  {
    IntendedShape(cfg, keyring, msg, data);
    SmtpRunFacts(cfg, keyring, msg, data, {});
  }

  /**
   * For a message built by either builder, the transmission goes from the
   * builder's sender to exactly the builder's recipient.
   */
  lemma BuiltMessageEnvelope(fromEmail: string, toEmail: string, subject: string, bodyText: string,
                             bodyHtml: string, date: string, data: string)
    ensures Closing(MsgPlain(fromEmail, toEmail, subject, bodyText, date), data)[0] ==
            SendMail(Some(fromEmail), [Some(toEmail)], data)
    ensures Closing(MsgHtml(fromEmail, toEmail, subject, bodyText, bodyHtml, date), data)[0] ==
            SendMail(Some(fromEmail), [Some(toEmail)], data)
  {
  }

  // ---------------------------------------------------------------------
  // The run for each way `send` can end, used by the proof of `Send`
  // ---------------------------------------------------------------------

  lemma RunWhenConnectRaises(cfg: Settings, keyring: Option<map<Key, string>>, msg: Message, data: string,
                             rejected: set<Event>)
    requires Connect(cfg.server, cfg.port) in rejected
    ensures SmtpRun(cfg, keyring, msg, data, rejected) ==
            Run(Raised(Connect(cfg.server, cfg.port)), [Connect(cfg.server, cfg.port)])
  {
    IntendedShape(cfg, keyring, msg, data);
    SmtpRunFacts(cfg, keyring, msg, data, rejected);
    var s := Intended(cfg, keyring, msg, data);
    assert s.calls[0] == Opening(cfg)[0];
    StopsAtFirstRejected(s.calls, s.ending, rejected, 0);
  }

  lemma RunWhenEhloRaises(cfg: Settings, keyring: Option<map<Key, string>>, msg: Message, data: string,
                          rejected: set<Event>)
    requires Connect(cfg.server, cfg.port) !in rejected && Ehlo in rejected
    ensures SmtpRun(cfg, keyring, msg, data, rejected) == Run(Raised(Ehlo), [Connect(cfg.server, cfg.port), Ehlo])
  {
    IntendedShape(cfg, keyring, msg, data);
    SmtpRunFacts(cfg, keyring, msg, data, rejected);
    var s := Intended(cfg, keyring, msg, data);
    assert s.calls[..2] == Opening(cfg)[..2];
    StopsAtFirstRejected(s.calls, s.ending, rejected, 1);
  }

  lemma RunWhenStartTlsRaises(cfg: Settings, keyring: Option<map<Key, string>>, msg: Message, data: string,
                              rejected: set<Event>)
    requires cfg.tls && Connect(cfg.server, cfg.port) !in rejected && Ehlo !in rejected && StartTls in rejected
    ensures SmtpRun(cfg, keyring, msg, data, rejected) == Run(Raised(StartTls), Opening(cfg))
  {
    IntendedShape(cfg, keyring, msg, data);
    SmtpRunFacts(cfg, keyring, msg, data, rejected);
    var s := Intended(cfg, keyring, msg, data);
    StopsAtFirstRejected(s.calls, s.ending, rejected, 2);
  }

  lemma RunWhenPasswordMissing(cfg: Settings, keyring: Option<map<Key, string>>, msg: Message, data: string,
                               rejected: set<Event>)
    requires PasswordMissing(cfg, keyring) && NoneRejected(Opening(cfg), rejected)
    ensures SmtpRun(cfg, keyring, msg, data, rejected) == Run(ValueError(cfg.server, cfg.user), Opening(cfg))
  {
    ExecuteComplete(Opening(cfg), ValueError(cfg.server, cfg.user), rejected);
  }

  lemma RunWhenLoginRaises(cfg: Settings, keyring: Option<map<Key, string>>, msg: Message, data: string,
                           rejected: set<Event>, pw: string)
    requires NoneRejected(Opening(cfg), rejected)
    requires LoginCalls(cfg, keyring) == [Login(cfg.user, pw)] && Login(cfg.user, pw) in rejected
    ensures SmtpRun(cfg, keyring, msg, data, rejected) ==
            Run(Raised(Login(cfg.user, pw)), Opening(cfg) + [Login(cfg.user, pw)])
  {
    var s, o := Intended(cfg, keyring, msg, data), Opening(cfg);
    assert s.calls == (o + [Login(cfg.user, pw)]) + Closing(msg, data);
    StopsAtFirstRejected(s.calls, s.ending, rejected, |o|);
  }

  lemma RunWhenTransmissionRaises(cfg: Settings, keyring: Option<map<Key, string>>, msg: Message, data: string,
                                  rejected: set<Event>)
    requires !PasswordMissing(cfg, keyring)
    requires NoneRejected(Opening(cfg) + LoginCalls(cfg, keyring), rejected)
    requires Closing(msg, data)[0] in rejected
    ensures SmtpRun(cfg, keyring, msg, data, rejected) ==
            Run(Raised(Closing(msg, data)[0]), Opening(cfg) + LoginCalls(cfg, keyring) + [Closing(msg, data)[0]])
  {
    var s, pre, c := Intended(cfg, keyring, msg, data), Opening(cfg) + LoginCalls(cfg, keyring), Closing(msg, data);
    assert s.calls == pre + c;
    assert s.calls[..|pre| + 1] == pre + [c[0]];
    StopsAtFirstRejected(s.calls, s.ending, rejected, |pre|);
  }

  lemma RunWhenQuitRaises(cfg: Settings, keyring: Option<map<Key, string>>, msg: Message, data: string,
                          rejected: set<Event>)
    requires !PasswordMissing(cfg, keyring)
    requires NoneRejected(Opening(cfg) + LoginCalls(cfg, keyring), rejected)
    requires Closing(msg, data)[0] !in rejected && Quit in rejected
    ensures SmtpRun(cfg, keyring, msg, data, rejected) ==
            Run(Raised(Quit), Opening(cfg) + LoginCalls(cfg, keyring) + Closing(msg, data))
  {
    var s, pre, c := Intended(cfg, keyring, msg, data), Opening(cfg) + LoginCalls(cfg, keyring), Closing(msg, data);
    assert s.calls == pre + c;
    assert s.calls[..|pre| + 1] == pre + [c[0]];
    assert s.calls[..|pre| + 2] == s.calls;
    StopsAtFirstRejected(s.calls, s.ending, rejected, |pre| + 1);
  }

  lemma RunWhenNothingRaises(cfg: Settings, keyring: Option<map<Key, string>>, msg: Message, data: string,
                             rejected: set<Event>)
    requires !PasswordMissing(cfg, keyring)
    requires NoneRejected(Opening(cfg) + LoginCalls(cfg, keyring), rejected)
    requires Closing(msg, data)[0] !in rejected && Quit !in rejected
    ensures SmtpRun(cfg, keyring, msg, data, rejected) ==
            Run(Delivered, Opening(cfg) + LoginCalls(cfg, keyring) + Closing(msg, data))
  {
    var s, pre, c := Intended(cfg, keyring, msg, data), Opening(cfg) + LoginCalls(cfg, keyring), Closing(msg, data);
    assert s.calls == pre + c;
    assert forall e :: e in s.calls ==> e in pre || e == c[0] || e == Quit;
    ExecuteComplete(s.calls, s.ending, rejected);
  }

  /** The `smtplib.SMTP` object: the calls it has received, and which of them raise. */
  class SmtpConnection {
    const rejected: set<Event>
    var trace: seq<Event>
    /** Whether the connection made by the constructor went through. */
    var connected: bool

    /** `smtplib.SMTP(host, port)`, which connects at once. */
    constructor (host: string, port: int, rejected: set<Event>)
      ensures this.rejected == rejected
      ensures trace == [Connect(host, port)]
      ensures connected == (Connect(host, port) !in rejected)
    {
      this.rejected := rejected;
      trace := [Connect(host, port)];
      connected := Connect(host, port) !in rejected;
    }

    /** One of the connection's methods (`ehlo`, `starttls`, `login`, `sendmail`, `quit`); `ok` is false when it raises. */
    method Call(e: Event) returns (ok: bool)
      modifies this
      ensures connected == old(connected)
      ensures trace == old(trace) + [e]
      ensures ok == (e !in rejected)
    {
      trace := trace + [e];
      ok := e !in rejected;
    }
  }

  class SmtpMailer {
    const smtpServer: string
    const smtpUser: string
    const smtpPort: int
    const tls: bool
    const auth: bool

    /** `SMTPMailer.__init__`; note the user comes first. */
    constructor (smtpUser: string, smtpServer: string, smtpPort: int, tls: bool, auth: bool)
      ensures Config() == Settings(smtpServer, smtpUser, smtpPort, tls, auth)
    {
      this.smtpServer := smtpServer;
      this.smtpUser := smtpUser;
      this.smtpPort := smtpPort;
      this.tls := tls;
      this.auth := auth;
    }

    function Config(): Settings
    {
      Settings(smtpServer, smtpUser, smtpPort, tls, auth)
    }

    /** What `send` sees of the keyring: its contents, or None when the module is missing. */
    static function KeyringContents(keyring: Keyring?): Option<map<Key, string>>
      reads keyring
    {
      if keyring == null then None else Some(keyring.store)
    }

    /**
     * `SMTPMailer.send`. `asString` is `msg.as_string()`, `keyring` the
     * optional keyring module and `rejected` the calls on which the network
     * or `smtplib` raises. Returns how the call ended and every call the
     * connection received.
     */
    method Send(msg: Message, asString: Message -> string, keyring: Keyring?, rejected: set<Event>)
      returns (outcome: Outcome, trace: seq<Event>)
      ensures Run(outcome, trace) == SmtpRun(Config(), KeyringContents(keyring), msg, asString(msg), rejected)
    {
      var data := asString(msg);
      var s := new SmtpConnection(smtpServer, smtpPort, rejected);
      if !s.connected {
        RunWhenConnectRaises(Config(), KeyringContents(keyring), msg, data, rejected);
        return Raised(Connect(smtpServer, smtpPort)), s.trace;
      }
      var ok := s.Call(Ehlo);
      if !ok {
        RunWhenEhloRaises(Config(), KeyringContents(keyring), msg, data, rejected);
        return Raised(Ehlo), s.trace;
      }
      if tls {
        ok := s.Call(StartTls);
        if !ok {
          RunWhenStartTlsRaises(Config(), KeyringContents(keyring), msg, data, rejected);
          return Raised(StartTls), s.trace;
        }
      }
      assert s.trace == Opening(Config()) && NoneRejected(s.trace, rejected);
      if auth && keyring != null {
        var passwd := keyring.GetPassword(smtpServer, smtpUser);
        if passwd.None? {
          RunWhenPasswordMissing(Config(), KeyringContents(keyring), msg, data, rejected);
          return ValueError(smtpServer, smtpUser), s.trace;
        }
        ok := s.Call(Login(smtpUser, passwd.value));
        if !ok {
          RunWhenLoginRaises(Config(), KeyringContents(keyring), msg, data, rejected, passwd.value);
          return Raised(Login(smtpUser, passwd.value)), s.trace;
        }
      }
      assert s.trace == Opening(Config()) + LoginCalls(Config(), KeyringContents(keyring)) && NoneRejected(s.trace, rejected);
      var sendmail := SendMail(Header(msg, "From"), [Header(msg, "To")], data);
      assert sendmail == Closing(msg, data)[0];
      ok := s.Call(sendmail);
      if !ok {
        RunWhenTransmissionRaises(Config(), KeyringContents(keyring), msg, data, rejected);
        return Raised(sendmail), s.trace;
      }
      ok := s.Call(Quit);
      if !ok {
        RunWhenQuitRaises(Config(), KeyringContents(keyring), msg, data, rejected);
        return Raised(Quit), s.trace;
      }
      RunWhenNothingRaises(Config(), KeyringContents(keyring), msg, data, rejected);
      return Delivered, s.trace;
    }
  }
}
