/*
 * The bookkeeping of the IRC bot that renders mIRC art on request: the
 * list of channel operators it accepts requests from (fed by NAMES
 * replies and MODE changes), the rate limit on requests, and the flag
 * that makes it rejoin its channel after a kick.
 */
module IrcBot {
  import opened Wrappers
  import opened Strings

  /**
   * A server line split into fields: `message[0]` is the prefix (the
   * sender), `message[1]` the command, and the parameters follow.  Reading
   * a field past the end raises `IndexError`.
   */
  type Message = seq<string>

  /** `int(t)` for a float clock reading `t`: truncation toward zero. */
  function Trunc(t: real): int
  {
    if t >= 0.0 then t.Floor else -((-t).Floor)
  }

  /** Whole seconds that must pass between two accepted requests. */
  const RequestInterval: int := 45

  /** Seconds to wait before (each attempt at) rejoining the channel. */
  const RejoinDelay: real := 15.0

  /** What a channel message must start with to be a request. */
  const RequestPrefix: string := "!pngbot "

  /** Channel and nick names compare without regard to case. */
  predicate SameName(a: string, b: string)
  {
    Lower(a) == Lower(b)
  }

  /** Every entry of the operator list is lower case. */
  predicate AllLower(ops: seq<string>)
  {
    forall i :: 0 <= i < |ops| ==> IsLower(ops[i])
  }

  // ---------------------------------------------------------------------
  // NAMES replies

  /** A NAMES entry `@nick` with a non-empty nick marks a channel operator. */
  predicate IsOpEntry(t: string)
  {
    |t| > 1 && t[0] == '@'
  }

  /** The lower-cased operator nicks among the NAMES entries, in order, repeats kept. */
  function NamesOps(entries: seq<string>): (ops: seq<string>)
    ensures |ops| <= |entries|
    ensures AllLower(ops)
    decreases |entries|
  {
    if entries == [] then []
    else
      var last := entries[|entries| - 1];
      NamesOps(entries[..|entries| - 1]) + (if IsOpEntry(last) then [Lower(last[1..])] else [])
  }

  /** A nick is collected exactly when some entry marks it, in any case, as an operator. */
  lemma {:induction false} NamesOpsMembers(entries: seq<string>, nick: string)
    ensures nick in NamesOps(entries) <==> exists t :: t in entries && IsOpEntry(t) && Lower(t[1..]) == nick
    decreases |entries|
  {
    if entries != [] {
      var init, last := entries[..|entries| - 1], entries[|entries| - 1];
      NamesOpsMembers(init, nick);
      assert entries == init + [last];
      if nick in NamesOps(entries) && !(nick in NamesOps(init)) {
        assert IsOpEntry(last) && Lower(last[1..]) == nick;
      }
      if exists t :: t in entries && IsOpEntry(t) && Lower(t[1..]) == nick {
        var t :| t in entries && IsOpEntry(t) && Lower(t[1..]) == nick;
        if t != last {
          assert t in init;
        }
      }
    }
  }

  /**
   * `dispatch353` as a value: the operator list after the reply, or `None`
   * when a field it reads is missing.  Replies for other channels change nothing.
   */
  function NamesUpdate(channel: string, ops: seq<string>, message: Message): Option<seq<string>>
  {
    if |message| <= 4 then None
    else if !SameName(message[4], channel) then Some(ops)
    else if |message| <= 5 then None
    else Some(ops + NamesOps(Split(message[5], ' ')))
  }

  // ---------------------------------------------------------------------
  // MODE changes

  /**
   * The variables of the `dispatchMode` loop: the direction (`+` or `-`),
   * the index of the next mode argument, and the candidates to authorise
   * and to deauthorise.
   */
  datatype ModeScan = ModeScan(adding: bool, arg: nat, add: string, del: string)

  const ModeStart: ModeScan := ModeScan(true, 4, "", "")

  /**
   * One mode character: a sign sets the direction; every letter takes the
   * next argument, and `o` records it as the candidate of its direction
   * (clearing the other); anything else is skipped.  `None` when `o` reads
   * an argument the message lacks.
   */
  function ModeStep(message: Message, st: ModeScan, c: char): Option<ModeScan>
  {
    if c == '-' then Some(st.(adding := false))
    else if c == '+' then Some(st.(adding := true))
    else if !IsAlpha(c) then Some(st)
    else if c != 'o' then Some(st.(arg := st.arg + 1))
    else if st.arg >= |message| then None
    else if st.adding then Some(ModeScan(true, st.arg + 1, message[st.arg], ""))
    else Some(ModeScan(false, st.arg + 1, "", message[st.arg]))
  }

  /** The mode loop over `modes`. */
  function ScanModes(message: Message, modes: string): Option<ModeScan>
    decreases |modes|
  {
    if modes == [] then Some(ModeStart)
    else
      match ScanModes(message, modes[..|modes| - 1])
      case None => None
      case Some(st) => ModeStep(message, st, modes[|modes| - 1])
  }

  /** Once the loop has failed on a prefix it fails on the whole mode string. */
  lemma {:induction false} ScanModesStuck(message: Message, modes: string, i: nat)
    requires i <= |modes| && ScanModes(message, modes[..i]).None?
    ensures ScanModes(message, modes).None?
    decreases |modes| - i
  {
    if i < |modes| {
      assert modes[..i + 1][..i] == modes[..i];
      ScanModesStuck(message, modes, i + 1);
    } else {
      assert modes[..i] == modes;
    }
  }

  // The loop in closed form.

  /** The number of letters in `s`: the arguments they take. */
  function CountAlpha(s: string): nat
    decreases |s|
  {
    if s == [] then 0 else CountAlpha(s[..|s| - 1]) + (if IsAlpha(s[|s| - 1]) then 1 else 0)
  }

  /** The direction after `s`: set by the last sign in it, `+` when there is none. */
  function LastSign(s: string): bool
    decreases |s|
  {
    if s == [] then true
    else if s[|s| - 1] == '-' then false
    else if s[|s| - 1] == '+' then true
    else LastSign(s[..|s| - 1])
  }

  /** The position of the last `o` in `s`. */
  function LastO(s: string): (k: Option<nat>)
    ensures k.Some? ==> k.value < |s| && s[k.value] == 'o'
    ensures k.None? ==> 'o' !in s
    decreases |s|
  {
    if s == [] then None
    else if s[|s| - 1] == 'o' then Some(|s| - 1)
    else
      var k := LastO(s[..|s| - 1]);
      assert s == s[..|s| - 1] + [s[|s| - 1]];
      k
  }

  /**
   * The outcome of the mode loop stated directly: only the last `o` counts;
   * its direction is the last sign before it, and its argument is the one
   * after as many arguments as there are letters before it.
   */
  function ModesReference(message: Message, modes: string): Option<ModeScan>
  {
    var adding, arg := LastSign(modes), 4 + CountAlpha(modes);
    match LastO(modes)
    case None => Some(ModeScan(adding, arg, "", ""))
    case Some(k) =>
      var i := 4 + CountAlpha(modes[..k]);
      if i >= |message| then None
      else if LastSign(modes[..k]) then Some(ModeScan(adding, arg, message[i], ""))
      else Some(ModeScan(adding, arg, "", message[i]))
  }

  /** The letters of a prefix ending before a letter are fewer than those of the whole. */
  lemma {:induction false} CountAlphaPrefix(s: string, j: nat)
    requires j < |s| && IsAlpha(s[j])
    ensures CountAlpha(s[..j]) < CountAlpha(s)
    decreases |s|
  {
    if j < |s| - 1 {
      var init := s[..|s| - 1];
      assert init[..j] == s[..j];
      CountAlphaPrefix(init, j);
    } else {
      assert s[..j] == s[..|s| - 1];
    }
  }

  /** The mode loop computes the closed form: the last `o` wins. */
  lemma {:induction false} LastOpWins(message: Message, modes: string)
    ensures ScanModes(message, modes) == ModesReference(message, modes)
    decreases |modes|
  {
    if modes != [] {
      var init, c := modes[..|modes| - 1], modes[|modes| - 1];
      LastOpWins(message, init);
      if c == 'o' {
        assert modes[..|modes| - 1] == init;
        match LastO(init)
        case None =>
        case Some(j) =>
          CountAlphaPrefix(init, j);
      } else {
        match LastO(init)
        case None =>
        case Some(j) =>
          assert modes[..j] == init[..j];
      }
    }
  }

  /** `list.remove(x)`: drops the first `x`; the list is unchanged when `x` is absent. */
  function RemoveFirst(s: seq<string>, x: string): (r: seq<string>)
    ensures multiset(r) == multiset(s) - multiset{x}
    ensures x !in s ==> r == s
    decreases |s|
  {
    if s == [] then []
    else
      assert s == [s[0]] + s[1..];
      if s[0] == x then s[1..] else [s[0]] + RemoveFirst(s[1..], x)
  }

  /** Removing an entry keeps a lower-case list lower case. */
  lemma {:induction false} RemoveFirstKeepsLower(s: seq<string>, x: string)
    requires AllLower(s)
    ensures AllLower(RemoveFirst(s, x))
    decreases |s|
  {
    if s != [] && s[0] != x {
      RemoveFirstKeepsLower(s[1..], x);
      var r := RemoveFirst(s, x);
      assert r == [s[0]] + RemoveFirst(s[1..], x);
      assert forall i :: 0 < i < |r| ==> r[i] == RemoveFirst(s[1..], x)[i - 1];
    }
  }

  /**
   * The update after the mode loop: a non-empty candidate not in the list
   * (compared in its own case) is appended lower-cased; otherwise a
   * non-empty deauthorisation candidate in the list is removed, lower-cased.
   * `None` when that removal raises `ValueError`.
   */
  function Authorise(ops: seq<string>, add: string, del: string): Option<seq<string>>
  {
    if |add| > 0 && add !in ops then Some(ops + [Lower(add)])
    else if |del| > 0 && del in ops then
      if Lower(del) in ops then Some(RemoveFirst(ops, Lower(del))) else None
    else Some(ops)
  }

  /** `dispatchMode` as a value: the operator list after the change, or `None` on an exception. */
  function ModeUpdate(channel: string, ops: seq<string>, message: Message): Option<seq<string>>
  {
    if |message| <= 2 then None
    else if !SameName(message[2], channel) then Some(ops)
    else if |message| <= 3 then None
    else
      match ScanModes(message, message[3])
      case None => None
      case Some(st) => Authorise(ops, st.add, st.del)
  }

  /**
   * On a lower-case list the update never raises `ValueError` and keeps the
   * list lower case; a nick is authorised at most by appending it and
   * deauthorised by dropping one copy.
   */
  lemma AuthoriseKeepsLower(ops: seq<string>, add: string, del: string)
    returns (r: seq<string>)
    requires AllLower(ops)
    ensures Authorise(ops, add, del) == Some(r)
    ensures AllLower(r)
    ensures |add| > 0 && add !in ops ==> r == ops + [Lower(add)]
    ensures !(|add| > 0 && add !in ops) && |del| > 0 && del in ops ==>
      multiset(r) == multiset(ops) - multiset{del}
    ensures !(|add| > 0 && add !in ops) && !(|del| > 0 && del in ops) ==> r == ops
  {
    if |add| > 0 && add !in ops {
      r := ops + [Lower(add)];
    } else if |del| > 0 && del in ops {
      var i :| 0 <= i < |ops| && ops[i] == del;
      assert IsLower(del);
      r := RemoveFirst(ops, Lower(del));
      RemoveFirstKeepsLower(ops, Lower(del));
    } else {
      r := ops;
    }
  }

  // ---------------------------------------------------------------------
  // Requests

  /** The outcome of a channel message: not a request, refused for one of two reasons, or accepted. */
  datatype Request = NotARequest | RateLimited | Unauthorised | Accepted(url: string)

  /** The nick of a sender `nick!user@host`, lower-cased. */
  function SenderNick(prefix: string): string
  {
    Lower(Split(prefix, '!')[0])
  }

  /** The word after `!pngbot `: the address of the art to render. */
  function RequestUrl(text: string): string
    requires StartsWith(text, RequestPrefix)
  {
    Split(text[|RequestPrefix|..], ' ')[0]
  }

  /** The address is the second space-separated field of the request. */
  lemma RequestUrlIsSecondField(text: string)
    requires StartsWith(text, RequestPrefix)
    ensures |Split(text, ' ')| >= 2
    ensures Split(text, ' ')[1] == RequestUrl(text)
  {
    var word := "!pngbot";
    assert text == word + [' '] + text[|RequestPrefix|..];
    SplitAtFirstSeparator(word, ' ', text[|RequestPrefix|..]);
  }

  /**
   * The gate of a request at clock reading `now`: refused while fewer than
   * 45 whole seconds have passed since the stamp `last`, then refused when
   * the sender is not an operator, else accepted.
   */
  function Admit(now: real, last: int, authorised: bool, url: string): Request
  {
    if Trunc(now) - last < RequestInterval then RateLimited
    else if !authorised then Unauthorised
    else Accepted(url)
  }

  /** `dispatchPrivmsg` up to the gate: the outcome, or `None` on a missing field. */
  function PrivmsgOutcome(channel: string, ops: seq<string>, last: int, message: Message, now: real)
    : Option<Request>
  {
    if |message| <= 2 then None
    else if !SameName(message[2], channel) then Some(NotARequest)
    else if |message| <= 3 then None
    else if !StartsWith(message[3], RequestPrefix) then Some(NotARequest)
    else Some(Admit(now, last, SenderNick(message[0]) in ops, RequestUrl(message[3])))
  }

  /** `int()` of a clock reading never decreases as the clock advances. */
  lemma TruncMono(a: real, b: real)
    requires a <= b
    ensures Trunc(a) <= Trunc(b)
  {
    if a < 0.0 && b >= 0.0 {
      assert Trunc(a) <= 0;
    }
  }

  /**
   * One request as the bot handles it: the clock reading the gate checks,
   * the later reading the stamp is taken from (the clock is read twice),
   * and whether the sender was an operator then.
   */
  datatype Attempt = Attempt(gateNow: real, stampNow: real, authorised: bool)

  /** The stamps of the accepted requests in a run of requests, starting from stamp `last`. */
  function AcceptedStamps(last: int, requests: seq<Attempt>): seq<int>
    decreases |requests|
  {
    if requests == [] then []
    else
      var a := requests[0];
      if Admit(a.gateNow, last, a.authorised, "").Accepted? then
        [Trunc(a.stampNow)] + AcceptedStamps(Trunc(a.stampNow), requests[1..])
      else AcceptedStamps(last, requests[1..])
  }

  /**
   * The rate limit: each accepted request is stamped at least 45 whole
   * seconds after the previous stamp (and after the starting one),
   * provided the clock does not run backwards between the two readings
   * of one request; between requests it may do anything.
   */
  lemma {:induction false} AcceptedRequestsSpaced(last: int, requests: seq<Attempt>)
    requires forall i :: 0 <= i < |requests| ==> requests[i].gateNow <= requests[i].stampNow
    ensures var s := AcceptedStamps(last, requests);
      && (|s| > 0 ==> s[0] - last >= RequestInterval)
      && forall i :: 0 < i < |s| ==> s[i] - s[i - 1] >= RequestInterval
    decreases |requests|
  {
    if requests != [] {
      var a := requests[0];
      if Admit(a.gateNow, last, a.authorised, "").Accepted? {
        TruncMono(a.gateNow, a.stampNow);
        var stamp := Trunc(a.stampNow);
        AcceptedRequestsSpaced(stamp, requests[1..]);
        var rest := AcceptedStamps(stamp, requests[1..]);
        var s := [stamp] + rest;
        forall i | 0 < i < |s| ensures s[i] - s[i - 1] >= RequestInterval
        {
          if i > 1 {
            assert s[i] == rest[i - 1] && s[i - 1] == rest[i - 2];
          }
        }
      } else {
        AcceptedRequestsSpaced(last, requests[1..]);
      }
    }
  }

  /**
   * If the clock runs backwards between the two readings of a request, two
   * accepted requests can be stamped less than 45 seconds apart.
   */
  lemma BackwardsClockBreaksSpacing()
    ensures var s := AcceptedStamps(0, [Attempt(45.0, 44.0, true), Attempt(89.0, 88.0, true)]);
      s == [44, 88] && s[1] - s[0] < RequestInterval
  {
    var rs := [Attempt(45.0, 44.0, true), Attempt(89.0, 88.0, true)];
    assert Trunc(45.0) == 45 && Trunc(44.0) == 44 && Trunc(89.0) == 89 && Trunc(88.0) == 88;
    assert rs[1..] == [Attempt(89.0, 88.0, true)];
    assert rs[1..][1..] == [];
  }

  // ---------------------------------------------------------------------
  // The bot

  /** `IrcMiRCARTBot`: its channel and nick, and the state its dispatch functions keep. */
  class Bot {
    const channel: string
    const nick: string
    var ops: seq<string>
    var lastMessage: int
    var nextTimeout: Option<real>
    var rejoin: bool

    /** The operator list holds lower-case nicks only. */
    predicate Valid()
      reads this`ops
    {
      AllLower(ops)
    }

    constructor(channel: string, nick: string)
      ensures this.channel == channel && this.nick == nick
      ensures ops == [] && lastMessage == 0 && nextTimeout == None && !rejoin
      ensures Valid()
    {
      this.channel, this.nick := channel, nick;
      ops, lastMessage, nextTimeout, rejoin := [], 0, None, false;
    }

    /**
     * `connect`: when the connection (made outside this model) succeeds,
     * the operator list, the request stamp and the rejoin flag start afresh.
     */
    method Connect(connected: bool) returns (r: bool)
      requires Valid()
      modifies this`ops, this`lastMessage, this`rejoin
      ensures r == connected
      ensures connected ==> ops == [] && lastMessage == 0 && !rejoin
      ensures !connected ==> ops == old(ops) && lastMessage == old(lastMessage) && rejoin == old(rejoin)
      ensures Valid()
    {
      if connected {
        lastMessage, ops := 0, [];
        rejoin := false;
      }
      r := connected;
    }

    /**
     * `dispatch353`: a NAMES reply for the bot's channel appends the
     * operators it lists; `malformed` is the `IndexError` of a missing field,
     * which leaves the list as it was.
     */
    method Dispatch353(message: Message) returns (malformed: bool)
      requires Valid()
      modifies this`ops
      ensures Valid()
      ensures malformed <==> NamesUpdate(channel, old(ops), message).None?
      ensures ops == NamesUpdate(channel, old(ops), message).GetOr(old(ops))
    {
      if |message| <= 4 {
        return true;
      }
      if !SameName(message[4], channel) {
        return false;
      }
      if |message| <= 5 {
        return true;
      }
      var entries := Split(message[5], ' ');
      for i := 0 to |entries|
        invariant ops == old(ops) + NamesOps(entries[..i])
      {
        var entry := entries[i];
        assert entries[..i + 1][..i] == entries[..i];
        if |entry| > 0 && entry[0] == '@' && |entry[1..]| > 0 {
          ops := ops + [Lower(entry[1..])];
        }
      }
      assert entries[..|entries|] == entries;
      malformed := false;
    }

    /** `dispatchJoin`: joining ends any pending rejoin. */
    method DispatchJoin(message: Message) returns (malformed: bool)
      modifies this`nextTimeout, this`rejoin
      ensures malformed <==> |message| <= 2
      ensures malformed ==> nextTimeout == old(nextTimeout) && rejoin == old(rejoin)
      ensures !malformed ==> nextTimeout == None && !rejoin
    {
      if |message| <= 2 {
        return true;
      }
      nextTimeout, rejoin := None, false;
      malformed := false;
    }

    /** `dispatchKick`: a kick of the bot from its channel schedules a rejoin 15 seconds after `now`. */
    method DispatchKick(message: Message, now: real) returns (malformed: bool)
      modifies this`nextTimeout, this`rejoin
      ensures malformed <==> |message| <= 2 || (SameName(message[2], channel) && |message| <= 3)
      ensures !malformed && SameName(message[2], channel) && SameName(message[3], nick) ==>
        nextTimeout == Some(now + RejoinDelay) && rejoin
      ensures !(!malformed && SameName(message[2], channel) && SameName(message[3], nick)) ==>
        nextTimeout == old(nextTimeout) && rejoin == old(rejoin)
    {
      if |message| <= 2 {
        return true;
      }
      if !SameName(message[2], channel) {
        return false;
      }
      if |message| <= 3 {
        return true;
      }
      if SameName(message[3], nick) {
        nextTimeout, rejoin := Some(now + RejoinDelay), true;
      }
      malformed := false;
    }

    /**
     * `dispatchMode`: walks the mode string of a MODE change on the bot's
     * channel and then authorises or deauthorises the last `o` candidate.
     */
    method DispatchMode(message: Message) returns (malformed: bool)
      requires Valid()
      modifies this`ops
      ensures Valid()
      ensures malformed <==> ModeUpdate(channel, old(ops), message).None?
      ensures ops == ModeUpdate(channel, old(ops), message).GetOr(old(ops))
    {
      if |message| <= 2 {
        return true;
      }
      if !SameName(message[2], channel) {
        return false;
      }
      if |message| <= 3 {
        return true;
      }
      var modes := message[3];
      var adding, arg, add, del := true, 4, "", "";
      var i := 0;
      while i < |modes|
        invariant 0 <= i <= |modes|
        invariant ScanModes(message, modes[..i]) == Some(ModeScan(adding, arg, add, del))
      {
        var c := modes[i];
        assert modes[..i + 1][..i] == modes[..i];
        if c == '-' {
          adding := false;
        } else if c == '+' {
          adding := true;
        } else if IsAlpha(c) {
          if c == 'o' {
            if arg >= |message| {
              ScanModesStuck(message, modes, i + 1);
              return true;
            }
            if adding {
              add, del := message[arg], "";
            } else {
              add, del := "", message[arg];
            }
          }
          arg := arg + 1;
        }
        i := i + 1;
      }
      assert modes[..i] == modes;
      var r := AuthoriseKeepsLower(ops, add, del);
      if |add| > 0 && add !in ops {
        ops := ops + [Lower(add)];
      } else if |del| > 0 && del in ops {
        ops := RemoveFirst(ops, Lower(del));
      }
      malformed := false;
    }

    /**
     * `dispatchPrivmsg` up to the gate: a request on the bot's channel is
     * accepted only 45 whole seconds after the last accepted one and only
     * from an operator.  The clock is read twice: `gateNow` for the check
     * and `stampNow` for the stamp of an accepted request.  Fetching,
     * rendering and uploading the art are not part of this model.
     */
    method DispatchPrivmsg(message: Message, gateNow: real, stampNow: real)
      returns (malformed: bool, request: Request)
      requires Valid()
      modifies this`lastMessage
      ensures malformed <==> PrivmsgOutcome(channel, ops, old(lastMessage), message, gateNow).None?
      ensures !malformed ==> request == PrivmsgOutcome(channel, ops, old(lastMessage), message, gateNow).value
      ensures lastMessage == if !malformed && request.Accepted? then Trunc(stampNow) else old(lastMessage)
      ensures request.Accepted? && gateNow <= stampNow ==> lastMessage - old(lastMessage) >= RequestInterval
    {
      request := NotARequest;
      if |message| <= 2 {
        return true, request;
      }
      if !SameName(message[2], channel) {
        return false, request;
      }
      if |message| <= 3 {
        return true, request;
      }
      if !StartsWith(message[3], RequestPrefix) {
        return false, request;
      }
      malformed := false;
      if Trunc(gateNow) - lastMessage < RequestInterval {
        request := RateLimited;
      } else if SenderNick(message[0]) !in ops {
        request := Unauthorised;
      } else {
        if gateNow <= stampNow {
          TruncMono(gateNow, stampNow);
        }
        lastMessage := Trunc(stampNow);
        RequestUrlIsSecondField(message[3]);
        request := Accepted(Split(message[3], ' ')[1]);
      }
    }

    /** `dispatchTimer`: while a rejoin is pending, sends JOIN and re-arms the timer 15 seconds after `now`. */
    method DispatchTimer(now: real) returns (joinSent: bool)
      modifies this`nextTimeout, this`rejoin
      ensures joinSent == old(rejoin) && rejoin == old(rejoin)
      ensures old(rejoin) ==> nextTimeout == Some(now + RejoinDelay)
      ensures !old(rejoin) ==> nextTimeout == old(nextTimeout)
    {
      joinSent := rejoin;
      if rejoin {
        nextTimeout, rejoin := Some(now + RejoinDelay), true;
      }
    }
  }
}
