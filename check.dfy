/**
 * The pre-flight connectivity check of the PID messaging layer (esgfpid/check.py).
 *
 * A RabbitChecker holds one current host and a stack of pending fallback
 * hosts. It tries to connect and to open a channel on the current host; every
 * failure is classified, recorded as one diagnostic line, and the next host is
 * popped from the END of the pending list. The loop stops at the first host that
 * works or when nothing is left; on total failure the recorded lines are framed
 * by a fixed header and trailer.
 *
 * The broker client is abstracted into a Transport: for every host it says how an
 * attempt on that host ends.
 */
module RabbitCheck {
  import opened Wrappers

  /** How one connect-then-open-channel attempt on a host ends. */
  datatype Outcome =
    | AuthFail     // ProbableAuthenticationError while connecting
    | ConnClosed   // ConnectionClosed while connecting
    | ConnNotOpen  // no connection object came back, or it is not open
    | ChannelFail  // ChannelClosed while opening the confirm-delivery channel
    | Ok           // connection and channel both came up

  /** The broker transport, as an oracle from host to outcome. */
  type Transport = string -> Outcome

  /** The outcomes that end an attempt while connecting, before any channel is opened. */
  predicate ConnectionFails(o: Outcome) {
    o.AuthFail? || o.ConnClosed? || o.ConnNotOpen?
  }

  /** An open connection to the current host, and whether a channel will open on it. */
  datatype Connection = Connection(channelOpens: bool)

  /** The exceptions construction can raise before any host is tried. */
  datatype ConfigError = ArgumentError(message: string) | TypeError

  /** Whether the URL arguments pass the check made at construction. */
  datatype UrlCheck = UrlsOk | Raises(error: ConfigError)

  const NoUrlMessage: string := "At least one messaging service URL has to be specified."

  //
  // Argument check (check.py:43-49)
  //

  /** Every host the caller supplied, preferred one first. */
  function GivenUrls(preferred: Option<string>, urls: Option<seq<string>>): seq<string> {
    (if preferred.Some? then [preferred.value] else [])
    + (if urls.Some? then urls.value else [])
  }

  /**
   * The check as written: `len(urls)` is evaluated whatever `urls` holds, so a
   * missing fallback list raises TypeError even when a preferred URL is given.
   */
  function CheckIfAnyUrlSpecifiedAsWritten(preferred: Option<string>, urls: Option<seq<string>>): (r: UrlCheck)
    ensures urls.None? ==> r == Raises(TypeError)
    ensures urls.Some? ==> (r == UrlsOk <==> |GivenUrls(preferred, urls)| > 0)
    ensures r.Raises? && urls.Some? ==> r.error == ArgumentError(NoUrlMessage)
  {
    if urls.None? then
      Raises(TypeError)  // len(None)
    else
      var preferredGiven := preferred.Some?;
      var otherGiven := |urls.value| > 0;
      if !(preferredGiven || otherGiven) then Raises(ArgumentError(NoUrlMessage)) else UrlsOk
  }

  /**
   * The check as intended: the fallback list is measured only when it is given,
   * so construction goes ahead exactly when at least one host was supplied.
   */
  function CheckIfAnyUrlSpecified(preferred: Option<string>, urls: Option<seq<string>>): (r: UrlCheck)
    ensures r == UrlsOk <==> |GivenUrls(preferred, urls)| > 0
    ensures r.Raises? ==> r.error == ArgumentError(NoUrlMessage)
  {
    var preferredGiven := preferred.Some?;
    var otherGiven := urls.Some? && |urls.value| > 0;
    if !(preferredGiven || otherGiven) then Raises(ArgumentError(NoUrlMessage)) else UrlsOk
  }

  /** The two checks agree whenever a fallback list is given. */
  lemma CheckAgreesWhenListGiven(preferred: Option<string>, urls: Option<seq<string>>)
    requires urls.Some?
    ensures CheckIfAnyUrlSpecifiedAsWritten(preferred, urls) == CheckIfAnyUrlSpecified(preferred, urls)
  {
  }

  /** A preferred URL alone is rejected as written but accepted as intended. */
  lemma PreferredOnlyRaisesTypeError(host: string)
    ensures CheckIfAnyUrlSpecifiedAsWritten(Some(host), None) == Raises(TypeError)
    ensures CheckIfAnyUrlSpecified(Some(host), None) == UrlsOk
  {
  }

  //
  // Diagnostic lines (check.py:193-217)
  //

  const Header: seq<string> := [
    "PROBLEM IN SETTING UP",
    "RABBIT MESSAGING QUEUE (PID MODULE)",
    "CONNECTION TO THE PID MESSAGING QUEUE FAILED DEFINITIVELY:"
  ]

  const Trailer: string := "PLEASE NOTIFY handle@dkrz.de AND INCLUDE THIS ERROR MESSAGE."

  /** The part every per-host line starts with. */
  function HostPrefix(host: string): string {
    " - host \"" + host + "\": "
  }

  function ChannelClosedMessage(host: string): string {
    HostPrefix(host) + "Channel failure."
  }

  function AuthenticationErrorMessage(host: string, username: string, password: string): string {
    HostPrefix(host) + "Authentication failure (user " + username + ", password " + password + ")."
  }

  function ConnectionClosedMessage(host: string): string {
    HostPrefix(host) + "Connection failure."
  }

  function ConnectionProblemMessage(host: string): string {
    HostPrefix(host) + "Unknown connection failure."
  }

  /** The line recorded for a failed attempt on `host`. */
  function FailureMessage(o: Outcome, host: string, username: string, password: string): string
    requires o != Ok
  {
    match o
    case AuthFail => AuthenticationErrorMessage(host, username, password)
    case ConnClosed => ConnectionClosedMessage(host)
    case ConnNotOpen => ConnectionProblemMessage(host)
    case ChannelFail => ChannelClosedMessage(host)
  }

  /** Every line starts by naming its host. */
  lemma FailureMessageNamesHost(o: Outcome, host: string, username: string, password: string)
    requires o != Ok
    ensures var m := FailureMessage(o, host, username, password);
            |HostPrefix(host)| < |m| && m[..|HostPrefix(host)|] == HostPrefix(host)
  {
  }

  /** Different failure kinds on the same host give different lines. */
  lemma FailureMessageDeterminesKind(o1: Outcome, o2: Outcome, host: string, username: string, password: string)
    requires o1 != Ok && o2 != Ok
    requires FailureMessage(o1, host, username, password) == FailureMessage(o2, host, username, password)
    ensures o1 == o2
  {
    var n := |HostPrefix(host)|;
    var m1, m2 := FailureMessage(o1, host, username, password), FailureMessage(o2, host, username, password);
    assert m1[n] == m2[n] && m1[n + 1] == m2[n + 1];
    assert m1[n..n + 2] == FailureMessage(o1, host, username, password)[n..n + 2];
  }

  /** The lines of the hosts of `hosts` that fail under `t`, in order. */
  function FailureLines(hosts: seq<string>, t: Transport, username: string, password: string): (r: seq<string>)
    ensures |r| <= |hosts|
  {
    if hosts == [] then []
    else
      var o := t(hosts[0]);
      (if o == Ok then [] else [FailureMessage(o, hosts[0], username, password)])
      + FailureLines(hosts[1..], t, username, password)
  }

  /** `line` is the failure line of some host of `hosts` that fails. */
  predicate LineOfFailure(line: string, hosts: seq<string>, t: Transport, username: string, password: string) {
    exists i :: 0 <= i < |hosts| && t(hosts[i]) != Ok
                && line == FailureMessage(t(hosts[i]), hosts[i], username, password)
  }

  /** Every line is the failure line of some host of the list that fails. */
  lemma {:induction false} FailureLinesComeFromFailures(hosts: seq<string>, t: Transport, username: string, password: string)
    ensures forall k :: 0 <= k < |FailureLines(hosts, t, username, password)| ==>
              LineOfFailure(FailureLines(hosts, t, username, password)[k], hosts, t, username, password)
    decreases |hosts|
  {
    if hosts != [] {
      var tail := hosts[1..];
      FailureLinesComeFromFailures(tail, t, username, password);
      var o := t(hosts[0]);
      var head := if o == Ok then [] else [FailureMessage(o, hosts[0], username, password)];
      var r, rest := FailureLines(hosts, t, username, password), FailureLines(tail, t, username, password);
      assert r == head + rest;
      forall k | 0 <= k < |r|
        ensures LineOfFailure(r[k], hosts, t, username, password)
      {
        if k < |head| {
          assert t(hosts[0]) != Ok && r[k] == FailureMessage(t(hosts[0]), hosts[0], username, password);
        } else {
          var j := k - |head|;
          assert 0 <= j < |rest| && r[k] == rest[j];
          assert LineOfFailure(rest[j], tail, t, username, password);
          var i' :| 0 <= i' < |tail| && t(tail[i']) != Ok
                  && rest[j] == FailureMessage(t(tail[i']), tail[i'], username, password);
          assert tail[i'] == hosts[i' + 1];
        }
      }
    }
  }

  /** When every host fails, there is exactly one line per host, the i-th about the i-th host. */
  lemma {:induction false} FailureLinesAllFail(hosts: seq<string>, t: Transport, username: string, password: string)
    requires forall i :: 0 <= i < |hosts| ==> t(hosts[i]) != Ok
    ensures var r := FailureLines(hosts, t, username, password);
            && |r| == |hosts|
            && forall i :: 0 <= i < |hosts| ==> r[i] == FailureMessage(t(hosts[i]), hosts[i], username, password)
    decreases |hosts|
  {
    if hosts != [] {
      FailureLinesAllFail(hosts[1..], t, username, password);
    }
  }

  /** Python's `list.insert(i, x)` for a non-negative index, which clamps to the end. */
  function Insert(s: seq<string>, i: nat, x: string): (r: seq<string>)
    ensures |r| == |s| + 1
    ensures var j := if i <= |s| then i else |s|; r[j] == x && r[..j] == s[..j] && r[j + 1..] == s[j..]
  {
    var j := if i <= |s| then i else |s|;
    s[..j] + [x] + s[j..]
  }

  //
  // Probing order (check.py:112-127)
  //

  /** `s` back to front. */
  function Reversed(s: seq<string>): (r: seq<string>)
    ensures |r| == |s|
    ensures forall i :: 0 <= i < |s| ==> r[i] == s[|s| - 1 - i]
  {
    if s == [] then [] else [s[|s| - 1]] + Reversed(s[..|s| - 1])
  }

  /** The order hosts are visited in: the current one, then the pending list from its end. */
  function ProbeOrder(current: string, pending: seq<string>): (order: seq<string>)
    ensures |order| == |pending| + 1 && order[0] == current
    ensures forall i :: 1 <= i < |order| ==> order[i] == pending[|pending| - i]
  {
    [current] + Reversed(pending)
  }

  /** Popping the last pending host leaves the rest of the order as it was. */
  lemma ProbeOrderPop(current: string, pending: seq<string>)
    requires |pending| > 0
    ensures ProbeOrder(current, pending)
         == [current] + ProbeOrder(pending[|pending| - 1], pending[..|pending| - 1])
  {
    var o, o' := ProbeOrder(current, pending), ProbeOrder(pending[|pending| - 1], pending[..|pending| - 1]);
    assert forall i :: 1 <= i < |o| ==> o[i] == o'[i - 1];
  }

  /** The number of hosts before the first one that works under `t` (|order| when none does). */
  function FirstOk(order: seq<string>, t: Transport): (k: nat)
    ensures k <= |order|
    ensures forall i :: 0 <= i < k ==> t(order[i]) != Ok
    ensures k < |order| ==> t(order[k]) == Ok
  {
    if order == [] then 0
    else if t(order[0]) == Ok then 0
    else 1 + FirstOk(order[1..], t)
  }

  /** An order whose first host fails: FirstOk counts that host and then looks at the rest. */
  lemma FirstOkAfterFailure(current: string, order': seq<string>, t: Transport)
    requires t(current) != Ok
    ensures FirstOk([current] + order', t) == 1 + FirstOk(order', t)
  {
    assert ([current] + order')[1..] == order';
  }

  /** How many hosts the loop tries: those up to and including the first that works. */
  function TriedCount(order: seq<string>, t: Transport): (m: nat)
    ensures |order| > 0 ==> 0 < m <= |order|
  {
    var k := FirstOk(order, t);
    if k < |order| then k + 1 else k
  }

  //
  // The failover loop as a state machine (check.py:85-119)
  //

  /** The loop's state: current host, pending hosts, recorded lines, hosts tried so far. */
  datatype Probing = Probing(current: string, pending: seq<string>, lines: seq<string>, tried: seq<string>)

  /** Where the loop stops, and whether some host worked. */
  datatype ProbeResult = ProbeResult(success: bool, final: Probing)

  /** A failed attempt on the current host: the host counts as tried and its line is recorded. */
  function Failed(s: Probing, t: Transport, username: string, password: string): Probing
    requires t(s.current) != Ok
  {
    s.(lines := s.lines + [FailureMessage(t(s.current), s.current, username, password)],
       tried := s.tried + [s.current])
  }

  /** The host at the end of the pending list becomes the current one. */
  function Popped(s: Probing): Probing
    requires |s.pending| > 0
  {
    s.(current := s.pending[|s.pending| - 1], pending := s.pending[..|s.pending| - 1])
  }

  /**
   * The loop, one attempt at a time: stop on a host that works; otherwise
   * record the failure and go on with the next host, or stop when none is left.
   */
  function Run(s: Probing, t: Transport, username: string, password: string): ProbeResult
    decreases |s.pending|
  {
    if t(s.current) == Ok then
      ProbeResult(true, s.(tried := s.tried + [s.current]))
    else if |s.pending| == 0 then
      ProbeResult(false, Failed(s, t, username, password))
    else
      Run(Popped(Failed(s, t, username, password)), t, username, password)
  }

  /** The number of hosts the loop tries from `s`. */
  function Reach(s: Probing, t: Transport): (m: nat)
    ensures 0 < m <= |s.pending| + 1
  {
    TriedCount(ProbeOrder(s.current, s.pending), t)
  }

  /** Whether some host of the LIFO order from `s` works. */
  predicate ProbeSucceeds(s: Probing, t: Transport) {
    var order := ProbeOrder(s.current, s.pending);
    FirstOk(order, t) < |order|
  }

  /** The host the loop stops at: the first that works, or the last of the order. */
  function ProbeLast(s: Probing, t: Transport): string {
    ProbeOrder(s.current, s.pending)[Reach(s, t) - 1]
  }

  /** What is left of the pending list: one host is used up per retry. */
  function ProbeRemaining(s: Probing, t: Transport): seq<string> {
    s.pending[..|s.pending| + 1 - Reach(s, t)]
  }

  /** The lines recorded: one per failing host before the first that works. */
  function ProbeLines(s: Probing, t: Transport, username: string, password: string): seq<string> {
    var order := ProbeOrder(s.current, s.pending);
    s.lines + FailureLines(order[..FirstOk(order, t)], t, username, password)
  }

  /** The hosts tried: the LIFO order up to and including the first that works. */
  function ProbeTried(s: Probing, t: Transport): seq<string> {
    s.tried + ProbeOrder(s.current, s.pending)[..Reach(s, t)]
  }

  /**
   * The loop's outcome in closed form: the hosts of the LIFO order are tried up
   * to and including the first that works (all of them when none does), each
   * failing one contributes its line, and one pending host is used up per retry.
   */
  function Probe(s: Probing, t: Transport, username: string, password: string): ProbeResult {
    ProbeResult(ProbeSucceeds(s, t),
                Probing(ProbeLast(s, t), ProbeRemaining(s, t), ProbeLines(s, t, username, password), ProbeTried(s, t)))
  }

  /** One failed attempt followed by a pop: the order loses its head and the counts drop by one. */
  lemma OrderAfterRetry(s: Probing, t: Transport, username: string, password: string)
    requires t(s.current) != Ok && |s.pending| > 0
    ensures var s' := Popped(Failed(s, t, username, password));
            var order, order' := ProbeOrder(s.current, s.pending), ProbeOrder(s'.current, s'.pending);
            && order == [s.current] + order'
            && FirstOk(order, t) == 1 + FirstOk(order', t)
            && Reach(s, t) == 1 + Reach(s', t)
  {
    var s' := Popped(Failed(s, t, username, password));
    ProbeOrderPop(s.current, s.pending);
    FirstOkAfterFailure(s.current, ProbeOrder(s'.current, s'.pending), t);
  }

  /** A failing host in front of a non-empty order changes neither the verdict nor the host stopped at. */
  lemma VerdictAfterFailure(c: string, order': seq<string>, t: Transport)
    requires t(c) != Ok && |order'| > 0
    ensures var order := [c] + order';
            && (FirstOk(order, t) < |order| <==> FirstOk(order', t) < |order'|)
            && order[TriedCount(order, t) - 1] == order'[TriedCount(order', t) - 1]
  {
    FirstOkAfterFailure(c, order', t);
  }

  /** Popping one pending host and trying one host fewer leaves the same prefix. */
  lemma RemainingAfterPop(pending: seq<string>, m': nat)
    requires 0 < m' <= |pending|
    ensures pending[..|pending| - 1][..|pending| - m'] == pending[..|pending| + 1 - (m' + 1)]
  {
  }

  /** A failing host in front of an order: its line comes first, then those of the rest. */
  lemma LinesAfterFailure(lines: seq<string>, c: string, order': seq<string>, t: Transport, username: string, password: string)
    requires t(c) != Ok
    ensures var order := [c] + order';
            lines + FailureLines(order[..FirstOk(order, t)], t, username, password)
              == (lines + [FailureMessage(t(c), c, username, password)])
                 + FailureLines(order'[..FirstOk(order', t)], t, username, password)
  {
    FirstOkAfterFailure(c, order', t);
    var k' := FirstOk(order', t);
    var lines' := FailureLines(order'[..k'], t, username, password);
    assert ([c] + order')[..k' + 1] == [c] + order'[..k'];
    assert ([c] + order'[..k'])[1..] == order'[..k'];
    assert lines + [FailureMessage(t(c), c, username, password)] + lines'
        == lines + ([FailureMessage(t(c), c, username, password)] + lines');
  }

  /** A failing host in front of an order: it is tried first, then the hosts of the rest. */
  lemma TriedAfterFailure(tried: seq<string>, c: string, order': seq<string>, t: Transport)
    requires t(c) != Ok
    ensures var order := [c] + order';
            tried + order[..TriedCount(order, t)] == (tried + [c]) + order'[..TriedCount(order', t)]
  {
    FirstOkAfterFailure(c, order', t);
    var m' := TriedCount(order', t);
    assert ([c] + order')[..m' + 1] == [c] + order'[..m'];
  }

  /** Probe is unchanged by one failed attempt followed by a pop. */
  lemma ProbeAfterRetry(s: Probing, t: Transport, username: string, password: string)
    requires t(s.current) != Ok && |s.pending| > 0
    ensures Probe(s, t, username, password) == Probe(Popped(Failed(s, t, username, password)), t, username, password)
  {
    var s' := Popped(Failed(s, t, username, password));
    var order' := ProbeOrder(s'.current, s'.pending);
    OrderAfterRetry(s, t, username, password);
    VerdictAfterFailure(s.current, order', t);
    RemainingAfterPop(s.pending, Reach(s', t));
    LinesAfterFailure(s.lines, s.current, order', t, username, password);
    TriedAfterFailure(s.tried, s.current, order', t);
  }

  /** The state machine and the closed form agree on every start state. */
  lemma {:induction false} RunIsProbe(s: Probing, t: Transport, username: string, password: string)
    ensures Run(s, t, username, password) == Probe(s, t, username, password)
    decreases |s.pending|
  {
    var order := ProbeOrder(s.current, s.pending);
    if t(s.current) == Ok {
      assert FirstOk(order, t) == 0;
    } else if |s.pending| == 0 {
      FirstOkAfterFailure(s.current, [], t);
      assert order == [s.current];
    } else {
      RunIsProbe(Popped(Failed(s, t, username, password)), t, username, password);
      ProbeAfterRetry(s, t, username, password);
    }
  }
  /** The first host of `order` that works is the one at `n`. */
  lemma FirstOkAt(order: seq<string>, t: Transport, n: nat)
    requires n < |order| && t(order[n]) == Ok
    requires forall i :: 0 <= i < n ==> t(order[i]) != Ok
    ensures FirstOk(order, t) == n && TriedCount(order, t) == n + 1
  {
  }

  /** The closed form when the first host that works is the n-th of the order. */
  lemma ProbeStopsAt(s: Probing, t: Transport, username: string, password: string, n: nat)
    requires n <= |s.pending| && FirstOk(ProbeOrder(s.current, s.pending), t) == n
    ensures var order := ProbeOrder(s.current, s.pending);
            Probe(s, t, username, password)
              == ProbeResult(true, Probing(order[n], s.pending[..|s.pending| - n],
                                           s.lines + FailureLines(order[..n], t, username, password),
                                           s.tried + order[..n + 1]))
  {
  }

  /** The loop stops at the first host of the LIFO order that works. */
  lemma StopsAtFirstOk(s: Probing, t: Transport, username: string, password: string, n: nat)
    requires n <= |s.pending|
    requires forall i :: 0 <= i < n ==> t(ProbeOrder(s.current, s.pending)[i]) != Ok
    requires t(ProbeOrder(s.current, s.pending)[n]) == Ok
    ensures var order := ProbeOrder(s.current, s.pending);
            Run(s, t, username, password)
              == ProbeResult(true, Probing(order[n], s.pending[..|s.pending| - n],
                                           s.lines + FailureLines(order[..n], t, username, password),
                                           s.tried + order[..n + 1]))
  {
    FirstOkAt(ProbeOrder(s.current, s.pending), t, n);
    ProbeStopsAt(s, t, username, password, n);
    RunIsProbe(s, t, username, password);
  }

  /** The closed form when no host of the order works. */
  lemma ProbeFailsOn(s: Probing, t: Transport, username: string, password: string)
    requires FirstOk(ProbeOrder(s.current, s.pending), t) == |s.pending| + 1
    ensures var order := ProbeOrder(s.current, s.pending);
            Probe(s, t, username, password)
              == ProbeResult(false, Probing(order[|s.pending|], [],
                                            s.lines + FailureLines(order, t, username, password),
                                            s.tried + order))
  {
    var order := ProbeOrder(s.current, s.pending);
    assert order[..|order|] == order;
  }

  /**
   * When every host fails, every host is tried in LIFO order and leaves its
   * line; the loop stops on the first host of the pending list.
   */
  lemma TotalFailure(s: Probing, t: Transport, username: string, password: string)
    requires forall i :: 0 <= i <= |s.pending| ==> t(ProbeOrder(s.current, s.pending)[i]) != Ok
    ensures var order, r := ProbeOrder(s.current, s.pending), Run(s, t, username, password);
            && !r.success
            && r.final.current == (if s.pending == [] then s.current else s.pending[0])
            && r.final.pending == []
            && r.final.tried == s.tried + order
            && r.final.lines == s.lines + FailureLines(order, t, username, password)
            && |r.final.lines| == |s.lines| + |order|
            && forall i :: 0 <= i < |order| ==>
                 r.final.lines[|s.lines| + i] == FailureMessage(t(order[i]), order[i], username, password)
  {
    var order := ProbeOrder(s.current, s.pending);
    assert FirstOk(order, t) == |order|;
    ProbeFailsOn(s, t, username, password);
    RunIsProbe(s, t, username, password);
    FailureLinesAllFail(order, t, username, password);
  }

  /** The loop succeeds exactly when some host it could try works. */
  lemma SucceedsIffSomeHostWorks(s: Probing, t: Transport, username: string, password: string)
    ensures Run(s, t, username, password).success
        <==> exists i :: 0 <= i < |s.pending| + 1 && t(ProbeOrder(s.current, s.pending)[i]) == Ok
  {
    RunIsProbe(s, t, username, password);
    var order := ProbeOrder(s.current, s.pending);
    var k := FirstOk(order, t);
    if k < |order| {
      assert t(order[k]) == Ok;
    }
  }

  /** With fallback [a, b, c] after the first host, the order is c, then b, then a. */
  lemma LifoOrderExample(first: string, a: string, b: string, c: string)
    ensures ProbeOrder(first, [a, b, c]) == [first, c, b, a]
  {
    var o := ProbeOrder(first, [a, b, c]);
    assert o[1] == c && o[2] == b && o[3] == a;
  }

  /** The channel-failure line, written out for one host. */
  lemma ChannelLineExample()
    ensures ChannelClosedMessage("h1") == " - host \"h1\": Channel failure."
  {
    assert " - host \"" + "h1" == " - host \"h1";
    assert " - host \"h1" + "\": " == " - host \"h1\": ";
  }

  /**
   * hostA fails to authenticate and the fallback hostB works: the loop stops on
   * hostB, having recorded one line, about hostA.
   */
  lemma AuthThenSuccessExample(t: Transport)
    requires t("hostA") == AuthFail && t("hostB") == Ok
    ensures Run(Probing("hostA", ["hostB"], [], []), t, "svc", "pw")
         == ProbeResult(true, Probing("hostB", [], [AuthenticationErrorMessage("hostA", "svc", "pw")], ["hostA", "hostB"]))
  {
    var s := Probing("hostA", ["hostB"], [], []);
    assert Popped(Failed(s, t, "svc", "pw"))
        == Probing("hostB", [], [AuthenticationErrorMessage("hostA", "svc", "pw")], ["hostA"]);
  }

  //
  // The checker object
  //

  class RabbitChecker {
    const username: string
    const password: string
    var hosts: seq<string>          // pending hosts, all except the current one
    var currentHost: string
    var errorMessages: seq<string>
    ghost var probed: seq<string>   // hosts handed to the transport so far, in order

    /** The attributes filled in from normalised arguments (check.py:61-67). */
    constructor (username: string, password: string, current: string, pending: seq<string>)
      ensures this.username == username && this.password == password
      ensures currentHost == current && hosts == pending
      ensures errorMessages == [] && probed == []
    {
      this.username := username;
      this.password := password;
      currentHost := current;
      hosts := pending;
      errorMessages := [];
      probed := [];
    }

    /** The loop's state as a Probing value. */
    ghost function State(): Probing
      reads this
    {
      Probing(currentHost, hosts, errorMessages, probed)
    }

    /** Whether a pending host is left to fall back to. */
    method IsUrlLeft() returns (left: bool)
      ensures left <==> |hosts| > 0
    {
      left := |hosts| > 0;
    }

    /** Pops the last pending host and makes it the current one. */
    method SetNextUrl()
      requires |hosts| > 0
      modifies this`hosts, this`currentHost
      ensures currentHost == old(hosts[|hosts| - 1])
      ensures hosts == old(hosts[..|hosts| - 1])
    {
      currentHost := hosts[|hosts| - 1];
      hosts := hosts[..|hosts| - 1];
    }

    method AddErrorMessageChannelClosed()
      modifies this`errorMessages
      ensures errorMessages == old(errorMessages) + [FailureMessage(ChannelFail, currentHost, username, password)]
    {
      errorMessages := errorMessages + [ChannelClosedMessage(currentHost)];
    }

    method AddErrorMessageAuthenticationError()
      modifies this`errorMessages
      ensures errorMessages == old(errorMessages) + [FailureMessage(AuthFail, currentHost, username, password)]
    {
      errorMessages := errorMessages + [AuthenticationErrorMessage(currentHost, username, password)];
    }

    method AddErrorMessageConnectionClosed()
      modifies this`errorMessages
      ensures errorMessages == old(errorMessages) + [FailureMessage(ConnClosed, currentHost, username, password)]
    {
      errorMessages := errorMessages + [ConnectionClosedMessage(currentHost)];
    }

    method AddErrorMessageConnectionProblem()
      modifies this`errorMessages
      ensures errorMessages == old(errorMessages) + [FailureMessage(ConnNotOpen, currentHost, username, password)]
    {
      errorMessages := errorMessages + [ConnectionProblemMessage(currentHost)];
    }

    /** Frames the recorded lines: three header lines in front, the trailer at the end. */
    method AddErrorMessageGeneral()
      modifies this`errorMessages
      ensures errorMessages == Header + old(errorMessages) + [Trailer]
    {
      errorMessages := Insert(errorMessages, 0, Header[0]);
      errorMessages := Insert(errorMessages, 1, Header[1]);
      errorMessages := Insert(errorMessages, 2, Header[2]);
      errorMessages := errorMessages + [Trailer];
      assert errorMessages[..3] == Header;
    }

    /**
     * Connects to the current host. An authentication failure, a closed
     * connection, or a connection that is absent or not open records its line
     * and yields no connection (the source raises ValueError).
     */
    method CheckMakingRabbitConnection(t: Transport) returns (connection: Option<Connection>)
      modifies this`errorMessages, this`probed
      ensures probed == old(probed) + [currentHost]
      ensures connection.None? <==> ConnectionFails(t(currentHost))
      ensures connection.Some? ==>
                connection.value == Connection(t(currentHost) == Ok)
                && errorMessages == old(errorMessages)
      ensures connection.None? ==>
                errorMessages == old(errorMessages) + [FailureMessage(t(currentHost), currentHost, username, password)]
    {
      probed := probed + [currentHost];
      var o := t(currentHost);
      match o
      case AuthFail =>
        AddErrorMessageAuthenticationError();
        connection := None;
      case ConnClosed =>
        AddErrorMessageConnectionClosed();
        connection := None;
      case ConnNotOpen =>
        AddErrorMessageConnectionProblem();
        connection := None;
      case ChannelFail =>
        connection := Some(Connection(false));
      case Ok =>
        connection := Some(Connection(true));
    }

    /** Opens a channel; a closed channel records its line and fails (ValueError). */
    method CheckOpeningChannel(connection: Connection) returns (channelOpen: bool)
      modifies this`errorMessages
      ensures channelOpen == connection.channelOpens
      ensures errorMessages == if channelOpen then old(errorMessages)
                               else old(errorMessages) + [FailureMessage(ChannelFail, currentHost, username, password)]
    {
      if connection.channelOpens {
        channelOpen := true;
      } else {
        AddErrorMessageChannelClosed();
        channelOpen := false;
      }
    }

    /**
     * One pass of the loop's body: connect to the current host, then open a
     * channel; either step's failure records its line (the source raises
     * ValueError, which the loop catches).
     */
    method TryCurrentHost(t: Transport) returns (success: bool)
      modifies this`errorMessages, this`probed
      ensures success <==> t(currentHost) == Ok
      ensures probed == old(probed) + [currentHost]
      ensures errorMessages == if success then old(errorMessages)
                               else old(errorMessages) + [FailureMessage(t(currentHost), currentHost, username, password)]
    {
      var connection := CheckMakingRabbitConnection(t);
      if connection.None? {
        return false;
      }
      success := CheckOpeningChannel(connection.value);
      // connection.close() (check.py:107) is not modelled
    }

    /**
     * The failover loop. It ends in the state the closed form Probe gives for
     * the state it starts in, and it is the state machine Run step by step.
     */
    method IterateOverAllHosts(t: Transport) returns (success: bool)
      modifies this`hosts, this`currentHost, this`errorMessages, this`probed
      ensures var r := Probe(old(State()), t, username, password);
              success == r.success && State() == r.final
    {
      ghost var s0 := State();
      ghost var r0 := Run(s0, t, username, password);
      success := false;
      while true
        invariant Run(State(), t, username, password) == r0
        decreases |hosts|
      {
        ghost var s := State();
        success := TryCurrentHost(t);
        if success {
          break;  // success, leave the loop
        }
        var left := IsUrlLeft();
        if left {
          SetNextUrl();
          assert State() == Popped(Failed(s, t, username, password));
        } else {
          break;  // definitive failure, leave the loop
        }
      }
      RunIsProbe(s0, t, username, password);
    }

    /** Adds the header and trailer and returns the report that is logged. */
    method AssembleAndPrintErrorMessage() returns (report: seq<string>)
      modifies this`errorMessages
      ensures errorMessages == Header + old(errorMessages) + [Trailer]
      ensures report == errorMessages
    {
      AddErrorMessageGeneral();
      report := errorMessages;
    }

    /**
     * Runs the loop and returns its verdict; only on failure are the recorded
     * lines framed by the header and the trailer.
     */
    method CheckAndInform(t: Transport) returns (success: bool)
      modifies this`hosts, this`currentHost, this`errorMessages, this`probed
      ensures var r := Probe(old(State()), t, username, password);
              && success == r.success
              && currentHost == r.final.current
              && hosts == r.final.pending
              && probed == r.final.tried
              && errorMessages == if r.success then r.final.lines else Header + r.final.lines + [Trailer]
    {
      success := IterateOverAllHosts(t);
      if !success {
        var _ := AssembleAndPrintErrorMessage();
      }
    }
  }

  /**
   * check_pid_queue_availability: construct a checker and run it. Construction
   * raises before any host is tried when no URL is given; otherwise the report
   * is logged exactly when every host fails. `normalise` stands for the URL
   * normalisation, which yields the current host and the pending list.
   */
  method CheckPidQueueAvailability(
    username: string, password: string,
    preferred: Option<string>, urls: Option<seq<string>>,
    normalise: (Option<string>, Option<seq<string>>) -> (string, seq<string>),
    t: Transport)
    returns (raised: Option<ConfigError>, warning: Option<seq<string>>, ghost probed: seq<string>)
    ensures raised.Some? <==> |GivenUrls(preferred, urls)| == 0
    ensures raised.Some? ==> raised.value == ArgumentError(NoUrlMessage) && warning.None? && probed == []
    ensures raised.None? ==>
              var (current, pending) := normalise(preferred, urls);
              var r := Probe(Probing(current, pending, [], []), t, username, password);
              && probed == r.final.tried
              && (warning.Some? <==> !r.success)
              && (warning.Some? ==> warning.value == Header + r.final.lines + [Trailer])
  {
    var urlCheck := CheckIfAnyUrlSpecified(preferred, urls);
    if urlCheck.Raises? {
      return Some(urlCheck.error), None, [];
    }
    var (current, pending) := normalise(preferred, urls);
    var checker := new RabbitChecker(username, password, current, pending);
    var success := checker.CheckAndInform(t);
    raised := None;
    warning := if success then None else Some(checker.errorMessages);
    probed := checker.probed;
  }
}
