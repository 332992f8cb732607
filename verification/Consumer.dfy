/** The consumer side of the Redis stream: the acknowledgement rule and the cursor-driven recovery scan. */
module Consuming {
  import opened Tables
  import opened Minimum
  import opened Sequences

  /** A stream entry's fields. `generation` is None when strconv.Atoi rejects the field. */
  datatype Message = Message(job: string, generation: Option<int>)

  /** Deliveries without a job or a positive generation are kept for investigation. */
  predicate Malformed(m: Message) { m.job == "" || m.generation.None? || m.generation.value < 1 }

  // ----- XAUTOCLAIM, as its documentation promises it

  /** The entries to claim, in id order, and the cursor to continue from: 0 when the end was reached. */
  datatype Scan = Scan(claimed: seq<nat>, next: nat)

  function Elements(s: seq<nat>): set<nat> { set x | x in s }

  function From(pending: set<nat>, start: nat): set<nat> { set x | x in pending && x >= start }

  /** Scans the pending entries from `start` in id order, claims those that are idle, and stops after `count`
      claims or `attempts` entries. */
  ghost function AutoClaim(pending: set<nat>, idle: set<nat>, start: nat, count: nat, attempts: nat): Scan
    decreases |From(pending, start)|
  {
    var ahead := From(pending, start);
    if ahead == {} then Scan([], 0)
    else
      var x := Least(ahead);
      if count == 0 || attempts == 0 then Scan([], x)
      else
        assert From(pending, x + 1) == ahead - {x};
        var rest := AutoClaim(pending, idle, x + 1, if x in idle then count - 1 else count, attempts - 1);
        Scan((if x in idle then [x] else []) + rest.claimed, rest.next)
  }

  const COUNT: nat := 100
  /** Redis looks at up to ten entries for each one it may claim. */
  const ATTEMPTS: nat := 1000

  function Below(s: set<nat>, lo: nat, hi: nat): set<nat> { set x | x in s && lo <= x < hi }

  /** One step of the scan. */
  lemma ScanStep(pending: set<nat>, idle: set<nat>, start: nat, count: nat, attempts: nat)
    requires From(pending, start) != {} && count > 0 && attempts > 0
    ensures var x := Least(From(pending, start));
            && From(pending, x + 1) == From(pending, start) - {x}
            && var rest := AutoClaim(pending, idle, x + 1, if x in idle then count - 1 else count, attempts - 1);
            AutoClaim(pending, idle, start, count, attempts)
                == Scan((if x in idle then [x] else []) + rest.claimed, rest.next)
  {
    var x := Least(From(pending, start));
    assert From(pending, x + 1) == From(pending, start) - {x};
  }

  lemma LeastFrom(pending: set<nat>, start: nat, y: nat)
    requires y in pending && y >= start
    ensures From(pending, start) != {} && Least(From(pending, start)) <= y
  {
    assert y in From(pending, start);
  }

  lemma {:induction false} ClaimsIdle(pending: set<nat>, idle: set<nat>, start: nat, count: nat, attempts: nat, x: nat)
    requires x in AutoClaim(pending, idle, start, count, attempts).claimed
    ensures x in pending && x in idle && start <= x
    decreases |From(pending, start)|
  {
    if From(pending, start) != {} && count > 0 && attempts > 0 {
      var y := Least(From(pending, start));
      ScanStep(pending, idle, start, count, attempts);
      if x != y || y !in idle {
        ClaimsIdle(pending, idle, y + 1, if y in idle then count - 1 else count, attempts - 1, x);
      }
    }
  }

  /** What the scan passed over and was idle, it claimed. Stream ids are positive. */
  lemma {:induction false} ClaimsPassed(pending: set<nat>, idle: set<nat>, start: nat, count: nat,
                                         attempts: nat, x: nat)
    requires 0 !in pending && x in pending && x in idle && start <= x
    ensures var r := AutoClaim(pending, idle, start, count, attempts);
            r.next == 0 || x < r.next ==> x in r.claimed
    decreases |From(pending, start)|
  {
    LeastFrom(pending, start, x);
    var y := Least(From(pending, start));
    if count > 0 && attempts > 0 {
      ScanStep(pending, idle, start, count, attempts);
      if x != y { ClaimsPassed(pending, idle, y + 1, if y in idle then count - 1 else count, attempts - 1, x); }
    }
  }

  lemma ScanClaims(pending: set<nat>, idle: set<nat>, start: nat, count: nat, attempts: nat)
    requires 0 !in pending
    ensures var r := AutoClaim(pending, idle, start, count, attempts);
            && (forall x :: x in pending && x in idle && start <= x && (r.next == 0 || x < r.next) ==> x in r.claimed)
            && (forall x :: x in r.claimed ==> x in pending && x in idle && start <= x)
  {
    var r := AutoClaim(pending, idle, start, count, attempts);
    forall x | x in pending && x in idle && start <= x && (r.next == 0 || x < r.next)
      ensures x in r.claimed
    {
      ClaimsPassed(pending, idle, start, count, attempts, x);
    }
    forall x | x in r.claimed
      ensures x in pending && x in idle && start <= x
    {
      ClaimsIdle(pending, idle, start, count, attempts, x);
    }
  }

  /** A scan that stops early has looked at no fewer entries than it may claim. */
  lemma {:induction false} ScanAdvances(pending: set<nat>, idle: set<nat>, start: nat, count: nat, attempts: nat)
    requires count <= attempts
    ensures var r := AutoClaim(pending, idle, start, count, attempts);
            r.next > 0 ==> start <= r.next && count <= |Below(pending, start, r.next)|
    decreases |From(pending, start)|
  {
    if From(pending, start) != {} && count > 0 {
      var x := Least(From(pending, start));
      ScanStep(pending, idle, start, count, attempts);
      if x in idle {
        ScanAdvances(pending, idle, x + 1, count - 1, attempts - 1);
      } else if count < attempts {
        ScanAdvances(pending, idle, x + 1, count, attempts - 1);
      } else {
        ScanAdvancesTight(pending, idle, x + 1, count, attempts - 1);
      }
      var next := AutoClaim(pending, idle, start, count, attempts).next;
      if next > 0 { OneBelow(pending, start, x, next); }
    }
  }

  /** The same when the allowance of entries is the tighter one. */
  lemma {:induction false} ScanAdvancesTight(pending: set<nat>, idle: set<nat>, start: nat, count: nat, attempts: nat)
    requires attempts < count
    ensures var r := AutoClaim(pending, idle, start, count, attempts);
            r.next > 0 ==> start <= r.next && attempts <= |Below(pending, start, r.next)|
    decreases |From(pending, start)|
  {
    if From(pending, start) != {} && attempts > 0 {
      var x := Least(From(pending, start));
      ScanStep(pending, idle, start, count, attempts);
      ScanAdvancesTight(pending, idle, x + 1, if x in idle then count - 1 else count, attempts - 1);
      var next := AutoClaim(pending, idle, start, count, attempts).next;
      if next > 0 { OneBelow(pending, start, x, next); }
    }
  }

  lemma OneBelow(pending: set<nat>, start: nat, x: nat, next: nat)
    requires From(pending, start) != {} && x == Least(From(pending, start)) && x < next
    ensures |Below(pending, start, next)| == |Below(pending, x + 1, next)| + 1
  {
    forall y | y in pending && start <= y
      ensures x <= y
    {
      LeastFrom(pending, start, y);
    }
    assert Below(pending, start, next) == Below(pending, x + 1, next) + {x};
  }

  predicate Rising(ids: seq<nat>) { forall i, j :: 0 <= i < j < |ids| ==> ids[i] < ids[j] }

  /** A scan claims no more than it may, in id order. */
  lemma {:induction false} ScanBounded(pending: set<nat>, idle: set<nat>, start: nat, count: nat, attempts: nat)
    ensures var r := AutoClaim(pending, idle, start, count, attempts);
            && |r.claimed| <= count && |r.claimed| <= attempts && Rising(r.claimed)
            && (forall i :: 0 <= i < |r.claimed| ==> r.claimed[i] >= start)
    decreases |From(pending, start)|
  {
    if From(pending, start) != {} && count > 0 && attempts > 0 {
      var x := Least(From(pending, start));
      ScanStep(pending, idle, start, count, attempts);
      ScanBounded(pending, idle, x + 1, if x in idle then count - 1 else count, attempts - 1);
    }
  }

  lemma ScanCovers(pending: set<nat>, idle: set<nat>, start: nat)
    requires 0 !in pending
    ensures var r := AutoClaim(pending, idle, start, COUNT, ATTEMPTS);
            && (forall x :: x in pending && x in idle && start <= x && (r.next == 0 || x < r.next) ==> x in r.claimed)
            && (forall x :: x in r.claimed ==> x in pending && x in idle && start <= x)
            && (r.next > 0 ==> start <= r.next && COUNT <= |Below(pending, start, r.next)|)
  {
    ScanClaims(pending, idle, start, COUNT, ATTEMPTS);
    ScanAdvances(pending, idle, start, COUNT, ATTEMPTS);
  }

  // ----- repeated recovery

  /** What one call finds: the entries pending in the group, and those idle long enough. */
  datatype Round = Round(pending: set<nat>, idle: set<nat>)

  ghost function ScanOf(cursor: nat, r: Round): Scan { AutoClaim(r.pending, r.idle, cursor, COUNT, ATTEMPTS) }

  /** One call claims at most a hundred entries, in id order. */
  lemma ScanTakesAHundred(cursor: nat, r: Round)
    ensures |ScanOf(cursor, r).claimed| <= 100 && Rising(ScanOf(cursor, r).claimed)
  {
    ScanBounded(r.pending, r.idle, cursor, COUNT, ATTEMPTS);
  }

  /** Some call hands entry x to the consumer. */
  ghost predicate Handed(cursor: nat, rounds: seq<Round>, x: nat)
    decreases |rounds|
  {
    rounds != [] && (x in ScanOf(cursor, rounds[0]).claimed || Handed(ScanOf(cursor, rounds[0]).next, rounds[1..], x))
  }

  /** The entries that may still be scanned before x is, plus a call's worth for wrapping around. */
  function Distance(all: set<nat>, cursor: nat, x: nat): nat {
    if cursor <= x then |Below(all, cursor, x)| else |From(all, cursor)| + |Below(all, 0, x)| + COUNT
  }

  /** A call that does not hand x over brings the cursor at least a hundred entries closer. */
  lemma CallAdvances(all: set<nat>, cursor: nat, r: Round, x: nat)
    requires x in r.pending && x in r.idle && r.pending <= all && 0 !in all
    requires x !in ScanOf(cursor, r).claimed
    ensures Distance(all, ScanOf(cursor, r).next, x) + COUNT <= Distance(all, cursor, x)
  {
    var next := ScanOf(cursor, r).next;
    ScanCovers(r.pending, r.idle, cursor);
    if next > 0 {
      SubsetSmaller(Below(r.pending, cursor, next), Below(all, cursor, next));
      if cursor <= x {
        assert Below(all, cursor, x) == Below(all, cursor, next) + Below(all, next, x);
      } else {
        assert From(all, cursor) == Below(all, cursor, next) + From(all, next);
      }
    }
  }

  lemma {:induction false} HandedWithin(all: set<nat>, cursor: nat, rounds: seq<Round>, x: nat)
    requires 0 !in all
    requires forall i :: 0 <= i < |rounds| ==> x in rounds[i].pending && x in rounds[i].idle && rounds[i].pending <= all
    requires COUNT * |rounds| > Distance(all, cursor, x)
    ensures Handed(cursor, rounds, x)
    decreases |rounds|
  {
    if x !in ScanOf(cursor, rounds[0]).claimed {
      CallAdvances(all, cursor, rounds[0], x);
      HandedWithin(all, ScanOf(cursor, rounds[0]).next, rounds[1..], x);
    }
  }

  /** From any cursor, an entry that stays pending and idle is handed to the consumer within |all|/100 + 2
      successful calls, where `all` are the entries pending at any of these calls, whichever others are
      acknowledged, claimed or newly delivered in between. */
  lemma RecoveryIsComplete(all: set<nat>, cursor: nat, rounds: seq<Round>, x: nat)
    requires 0 !in all
    requires forall i :: 0 <= i < |rounds| ==> x in rounds[i].pending && x in rounds[i].idle && rounds[i].pending <= all
    requires |rounds| >= |all| / 100 + 2
    ensures Handed(cursor, rounds, x)
  {
    if cursor <= x {
      SubsetSmaller(Below(all, cursor, x), all);
    } else {
      assert From(all, cursor) !! Below(all, 0, x);
      SubsetSmaller(From(all, cursor) + Below(all, 0, x), all);
    }
    HandedWithin(all, cursor, rounds, x);
  }

  // ----- the consumer's loop

  /** When the consumer notices that it is to stop: after some entries of a recovered batch, or after a read. */
  datatype Stop = Never | InRecovery(after: nat) | AfterRead

  /** One pass of Start's loop: the group as other consumers left it, whether a recovery is due and its scan
      succeeds, the new entry read, if any, how the deliveries fare, and whether the consumer stops. */
  datatype Pass = Pass(found: Round, due: bool, works: bool, read: Option<nat>, fates: nat -> Handling, stop: Stop)

  /** The passes that are run: all up to a stop. */
  function UntilStop(passes: seq<Pass>): seq<Pass> {
    if passes == [] then []
    else if passes[0].stop.Never? then [passes[0]] + UntilStop(passes[1..])
    else [passes[0]]
  }

  /** How many entries of a batch are handled before a stop is noticed. */
  function Limit(p: Pass, n: nat): (k: nat)
    ensures k <= n && (!p.stop.InRecovery? ==> k == n)
  {
    if p.stop.InRecovery? && p.stop.after < n then p.stop.after else n
  }

  /** The successful recovery scans among the passes. */
  function Scans(passes: seq<Pass>): seq<Round> {
    if passes == [] then []
    else (if passes[0].due && passes[0].works then [passes[0].found] else []) + Scans(passes[1..])
  }

  ghost function ScanIn(cursor: nat, p: Pass): Scan {
    if p.due && p.works then ScanOf(cursor, p.found) else Scan([], cursor)
  }

  ghost function CursorAfter(cursor: nat, passes: seq<Pass>): nat
    decreases |passes|
  {
    if passes == [] then cursor else CursorAfter(ScanIn(cursor, passes[0]).next, passes[1..])
  }

  /** The recovered entries that are handled. */
  ghost function Recovered(cursor: nat, p: Pass): seq<nat> {
    var claimed := ScanIn(cursor, p).claimed;
    claimed[..Limit(p, |claimed|)]
  }

  /** The entries handed over in one pass: those recovered, then the new one. */
  ghost function HandedBy(cursor: nat, p: Pass): seq<nat> {
    Recovered(cursor, p) + if p.read.Some? && p.stop.Never? then [p.read.value] else []
  }

  ghost function HandedIn(cursor: nat, passes: seq<Pass>): seq<nat>
    decreases |passes|
  {
    if passes == [] then []
    else HandedBy(cursor, passes[0]) + HandedIn(ScanIn(cursor, passes[0]).next, passes[1..])
  }

  /** What a pass leaves in the group. Entries that are claimed or read but not handled stay pending. */
  ghost function LeftBy(cursor: nat, p: Pass, messages: map<nat, Message>): Round {
    var rest := p.found.pending - Gone(Recovered(cursor, p), messages, p.fates);
    var pending :=
      if p.read.None? || p.stop.InRecovery? then rest
      else if p.stop.AfterRead? then rest + {p.read.value}
      else rest + {p.read.value} - Gone([p.read.value], messages, p.fates);
    Round(pending, p.found.idle - Elements(ScanIn(cursor, p).claimed))
  }

  predicate InGroup(p: Pass, messages: map<nat, Message>) {
    p.found.pending <= messages.Keys && 0 !in p.found.pending && (p.read.Some? ==> p.read.value in messages)
  }

  lemma {:induction false} PassesAppend(cursor: nat, passes: seq<Pass>, p: Pass)
    ensures CursorAfter(cursor, passes + [p]) == ScanIn(CursorAfter(cursor, passes), p).next
    ensures HandedIn(cursor, passes + [p]) == HandedIn(cursor, passes) + HandedBy(CursorAfter(cursor, passes), p)
    decreases |passes|
  {
    if passes == [] {
      assert (passes + [p])[1..] == [];
    } else {
      assert (passes + [p])[1..] == passes[1..] + [p];
      PassesAppend(ScanIn(cursor, passes[0]).next, passes[1..], p);
    }
  }

  lemma {:induction false} ScansHandOver(cursor: nat, passes: seq<Pass>, x: nat)
    requires Handed(cursor, Scans(passes), x) && forall k :: 0 <= k < |passes| ==> passes[k].stop.Never?
    ensures x in HandedIn(cursor, passes)
    decreases |passes|
  {
    var p := passes[0];
    if p.due && p.works {
      assert Scans(passes)[0] == p.found && Scans(passes)[1..] == Scans(passes[1..]);
      if x !in ScanOf(cursor, p.found).claimed { ScansHandOver(ScanIn(cursor, p).next, passes[1..], x); }
    } else {
      assert Scans(passes) == Scans(passes[1..]);
      ScansHandOver(ScanIn(cursor, p).next, passes[1..], x);
    }
  }

  /** Every new entry that the loop reads without stopping is handed over, after the recovered ones of its pass. */
  lemma {:induction false} ReadsHandOver(cursor: nat, passes: seq<Pass>, i: nat)
    requires i < |passes| && passes[i].read.Some? && passes[i].stop.Never?
    ensures passes[i].read.value in HandedIn(cursor, passes)
    ensures forall at :: HandedBy(at, passes[i])[|HandedBy(at, passes[i])| - 1] == passes[i].read.value
    decreases |passes|
  {
    if i > 0 { ReadsHandOver(ScanIn(cursor, passes[0]).next, passes[1..], i - 1); }
  }

  /** Only entries that were handed over, well formed, processed and acknowledged leave the pending list in a pass. */
  lemma LeavesOnlyIfHandled(cursor: nat, p: Pass, messages: map<nat, Message>, x: nat)
    requires x in p.found.pending && x !in LeftBy(cursor, p, messages).pending
    ensures x in HandedBy(cursor, p) && x in messages && p.fates(x).processed && p.fates(x).acked
    ensures messages[x].job != "" && messages[x].generation.Some? && messages[x].generation.value >= 1
  {
  }

  lemma {:induction false} ScanFound(passes: seq<Pass>, i: nat)
    requires i < |Scans(passes)|
    ensures exists k :: 0 <= k < |passes| && passes[k].due && passes[k].works && passes[k].found == Scans(passes)[i]
  {
    var first := if passes[0].due && passes[0].works then 1 else 0;
    if i >= first {
      ScanFound(passes[1..], i - first);
      var k :| 0 <= k < |passes[1..]| && passes[1..][k].due && passes[1..][k].works
          && passes[1..][k].found == Scans(passes[1..])[i - first];
      assert passes[k + 1] == passes[1..][k];
    }
  }

  /** Until it is stopped, the loop hands over every entry that each of its successful scans finds pending and
      idle, if there are |all|/100 + 2 of them, whatever new entries it reads and however deliveries fare. */
  lemma LoopRecovers(all: set<nat>, cursor: nat, passes: seq<Pass>, x: nat)
    requires 0 !in all
    requires forall k :: 0 <= k < |passes| && passes[k].due && passes[k].works ==>
               x in passes[k].found.pending && x in passes[k].found.idle && passes[k].found.pending <= all
    requires |Scans(passes)| >= |all| / 100 + 2 && forall k :: 0 <= k < |passes| ==> passes[k].stop.Never?
    ensures x in HandedIn(cursor, passes)
  {
    forall i | 0 <= i < |Scans(passes)|
      ensures x in Scans(passes)[i].pending && x in Scans(passes)[i].idle && Scans(passes)[i].pending <= all
    {
      ScanFound(passes, i);
    }
    RecoveryIsComplete(all, cursor, Scans(passes), x);
    ScansHandOver(cursor, passes, x);
  }

  // ----- the consumer

  /** The consumer group's pending entries. */
  class Group {
    var messages: map<nat, Message>
    var pending: set<nat>
    var idle: set<nat>

    constructor (messages: map<nat, Message>, pending: set<nat>, idle: set<nat>)
      requires pending <= messages.Keys
      ensures this.messages == messages && this.pending == pending && this.idle == idle
    {
      this.messages, this.pending, this.idle := messages, pending, idle;
    }

    method Ack(id: nat, works: bool) returns (ok: bool)
      modifies this`pending
      ensures ok == works && pending == if works then old(pending) - {id} else old(pending)
    {
      if works { pending := pending - {id}; }
      return works;
    }

    method FirstFrom(at: nat) returns (x: Option<nat>)
      ensures x == FirstOf(pending, at)
    {
      if exists y :: y in pending && IsNext(pending, at, y) {
        var y :| y in pending && IsNext(pending, at, y);
        NextIsLeast(pending, at, y);
        return Some(y);
      }
      if From(pending, at) != {} { NextExists(pending, at); }
      return None;
    }

    /** XREADGROUP: a new entry becomes pending. */
    method Read(id: nat)
      modifies this`pending
      ensures pending == old(pending) + {id}
    {
      pending := pending + {id};
    }

    /** XAUTOCLAIM: the claimed entries are no longer idle. */
    method XAutoClaim(start: nat, most: nat, allowance: nat) returns (claimed: seq<nat>, next: nat)
      modifies this`idle
      ensures Scan(claimed, next) == AutoClaim(pending, old(idle), start, most, allowance)
      ensures idle == old(idle) - Elements(claimed)
    {
      claimed := [];
      var at, count, attempts := start, most, allowance;
      ghost var whole := AutoClaim(pending, idle, start, most, allowance);
      var x := FirstFrom(at);
      while x.Some? && count > 0 && attempts > 0
        invariant idle == old(idle)
        invariant x == FirstOf(pending, at)
        invariant whole == After(claimed, AutoClaim(pending, idle, at, count, attempts))
        decreases attempts
      {
        ScanOne(pending, idle, at, count, attempts, claimed);
        if x.value in idle { claimed, count := claimed + [x.value], count - 1; }
        at, attempts := x.value + 1, attempts - 1;
        x := FirstFrom(at);
      }
      ScanEnds(pending, idle, at, count, attempts, claimed);
      next := if x.Some? then x.value else 0;
      idle := idle - Elements(claimed);
    }
  }

  /** A scan that continues one which has already claimed some entries. */
  function After(claimed: seq<nat>, rest: Scan): Scan { Scan(claimed + rest.claimed, rest.next) }

  lemma ScanOne(pending: set<nat>, idle: set<nat>, at: nat, count: nat, attempts: nat, claimed: seq<nat>)
    requires FirstOf(pending, at).Some? && count > 0 && attempts > 0
    ensures var x := FirstOf(pending, at).value;
            After(claimed, AutoClaim(pending, idle, at, count, attempts)) ==
              if x in idle then After(claimed + [x], AutoClaim(pending, idle, x + 1, count - 1, attempts - 1))
              else After(claimed, AutoClaim(pending, idle, x + 1, count, attempts - 1))
  {
    var x := FirstOf(pending, at).value;
    ScanStep(pending, idle, at, count, attempts);
    if x in idle {
      Reassociate(claimed, [x], AutoClaim(pending, idle, x + 1, count - 1, attempts - 1).claimed);
    }
  }

  ghost function FirstOf(pending: set<nat>, at: nat): Option<nat> {
    if From(pending, at) == {} then None else Some(Least(From(pending, at)))
  }

  lemma ScanEnds(pending: set<nat>, idle: set<nat>, at: nat, count: nat, attempts: nat, claimed: seq<nat>)
    requires FirstOf(pending, at) == None || count == 0 || attempts == 0
    ensures After(claimed, AutoClaim(pending, idle, at, count, attempts)) ==
              Scan(claimed, if FirstOf(pending, at).Some? then FirstOf(pending, at).value else 0)
  {
  }

  /** The first pending entry at or after `at`. */
  predicate IsNext(pending: set<nat>, at: nat, y: nat) { y >= at && forall z :: z in pending && z >= at ==> y <= z }

  lemma NextIsLeast(pending: set<nat>, at: nat, y: nat)
    requires y in pending && IsNext(pending, at, y)
    ensures From(pending, at) != {} && y == Least(From(pending, at))
  {
    assert y in From(pending, at);
  }

  lemma NextExists(pending: set<nat>, at: nat)
    requires From(pending, at) != {}
    ensures exists y :: y in pending && IsNext(pending, at, y)
  {
    var y := Least(From(pending, at));
    forall z | z in pending && z >= at
      ensures y <= z
    {
      assert z in From(pending, at);
    }
    assert IsNext(pending, at, y);
  }

  /** How the outside answers for one delivery: whether ProcessJob returns nil, whether XACK gets through. */
  datatype Handling = Handling(processed: bool, acked: bool)

  /** The deliveries that leave the pending list: well formed, processed without error, and acknowledged. */
  predicate Leaves(m: Message, f: Handling) { !Malformed(m) && f.processed && f.acked }

  /** The entries of a batch that leave the pending list when the batch is handled. */
  function Gone(batch: seq<nat>, messages: map<nat, Message>, fates: nat -> Handling): set<nat> {
    set x | x in batch && x in messages && Leaves(messages[x], fates(x))
  }

  lemma GoneNext(pending: set<nat>, batch: seq<nat>, i: nat, messages: map<nat, Message>, fates: nat -> Handling)
    requires i < |batch| && batch[i] in messages
    ensures batch[..i + 1] == batch[..i] + [batch[i]]
    ensures pending - Gone(batch[..i + 1], messages, fates) ==
              if Leaves(messages[batch[i]], fates(batch[i]))
              then pending - Gone(batch[..i], messages, fates) - {batch[i]}
              else pending - Gone(batch[..i], messages, fates)
  {
    assert batch[..i + 1] == batch[..i] + [batch[i]];
  }

  class Consumer {
    var cursor: nat
    ghost var handed: seq<nat>

    constructor ()
      ensures cursor == 0 && handed == []
    {
      cursor, handed := 0, [];
    }

    /** One delivery: only a nil result is acknowledged, and a malformed delivery never is. */
    method Handle(g: Group, id: nat, fate: Handling)
      requires id in g.messages
      modifies this`handed, g`pending
      ensures handed == old(handed) + [id]
      ensures g.pending == if Leaves(g.messages[id], fate) then old(g.pending) - {id} else old(g.pending)
      ensures var m := g.messages[id];
              id in old(g.pending) ==>
                (id !in g.pending <==>
                   m.job != "" && m.generation.Some? && m.generation.value >= 1 && fate.processed && fate.acked)
    {
      handed := handed + [id];
      var m := g.messages[id];
      if m.job == "" || m.generation.None? || m.generation.value < 1 { return; }
      if !fate.processed { return; }
      var ok := g.Ack(id, fate.acked);
    }

    /** Handles the entries of a batch one after the other, until a stop is noticed. */
    method HandleAll(g: Group, batch: seq<nat>, fates: nat -> Handling, limit: nat)
      requires limit <= |batch| && forall i :: 0 <= i < |batch| ==> batch[i] in g.messages
      modifies this`handed, g`pending
      ensures handed == old(handed) + batch[..limit]
      ensures g.pending == old(g.pending) - Gone(batch[..limit], g.messages, fates)
    {
      var i := 0;
      ghost var before := g.pending;
      assert Gone(batch[..0], g.messages, fates) == {};
      while i < limit
        invariant 0 <= i <= limit
        invariant handed == old(handed) + batch[..i]
        invariant g.pending == before - Gone(batch[..i], g.messages, fates)
      {
        GoneNext(before, batch, i, g.messages, fates);
        Handle(g, batch[i], fates(batch[i]));
        i := i + 1;
      }
    }

    /** One recovery call: claim from the cursor, move the cursor on, handle the claimed entries until a stop is
        noticed. A scan that fails leaves the cursor where it was. */
    method Recover(g: Group, p: Pass)
      requires g.pending <= g.messages.Keys && 0 !in g.pending
      modifies this, g`pending, g`idle
      ensures var scan := if p.works then ScanOf(old(cursor), Round(old(g.pending), old(g.idle)))
                          else Scan([], old(cursor));
              var batch := scan.claimed[..Limit(p, |scan.claimed|)];
              && cursor == scan.next
              && handed == old(handed) + batch
              && g.idle == old(g.idle) - Elements(scan.claimed)
              && g.pending == old(g.pending) - Gone(batch, g.messages, p.fates)
    {
      if !p.works { return; }
      ScanCovers(g.pending, g.idle, cursor);
      var claimed, next := g.XAutoClaim(cursor, COUNT, ATTEMPTS);
      cursor := next;
      HandleAll(g, claimed, p.fates, Limit(p, |claimed|));
    }

    /** The body of the consumer's loop: recover when due, then read and handle one new entry. */
    method Turn(g: Group, p: Pass)
      requires InGroup(p, g.messages)
      modifies this, g`pending, g`idle
      ensures cursor == ScanIn(old(cursor), p).next
      ensures handed == old(handed) + HandedBy(old(cursor), p)
      ensures Round(g.pending, g.idle) == LeftBy(old(cursor), p, g.messages)
    {
      g.pending, g.idle := p.found.pending, p.found.idle;
      if p.due { Recover(g, p); }
      if p.stop.InRecovery? || p.read.None? { return; }
      g.Read(p.read.value);
      if p.stop.AfterRead? { return; }
      Handle(g, p.read.value, p.fates(p.read.value));
      assert handed == old(handed) + (Recovered(old(cursor), p) + [p.read.value]);
    }

    /** The consumer's loop, until it is told to stop. */
    method Start(g: Group, passes: seq<Pass>)
      requires forall i :: 0 <= i < |passes| ==> InGroup(passes[i], g.messages)
      modifies this, g`pending, g`idle
      ensures cursor == CursorAfter(0, UntilStop(passes))
      ensures handed == old(handed) + HandedIn(0, UntilStop(passes))
      ensures Round(g.pending, g.idle) == LeftAfter(Round(old(g.pending), old(g.idle)), UntilStop(passes), g.messages)
    {
      cursor := 0;
      var i, stopped := 0, false;
      ghost var found, run: seq<Pass> := Round(g.pending, g.idle), [];
      while i < |passes| && !stopped
        invariant 0 <= i <= |passes|
        invariant UntilStop(passes) == if stopped then run else run + UntilStop(passes[i..])
        invariant SoFar(old(handed), found, run, g.messages, cursor, handed, Round(g.pending, g.idle))
        decreases |passes| - i
      {
        var p := passes[i];
        ghost var at, sofar, left := cursor, handed, Round(g.pending, g.idle);
        RunOne(run, passes, i);
        Turn(g, p);
        OneMore(old(handed), found, run, g.messages, at, sofar, left, p);
        stopped := !p.stop.Never?;
        i := i + 1;
        run := run + [p];
      }
      assert run + [] == run;
    }
  }

  /** The group after some passes. */
  ghost function LeftAfter(found: Round, run: seq<Pass>, messages: map<nat, Message>): Round {
    if run == [] then found else LeftBy(CursorAfter(0, run[..|run| - 1]), run[|run| - 1], messages)
  }

  /** Where the consumer and the group are after some passes. */
  ghost predicate SoFar(start: seq<nat>, found: Round, run: seq<Pass>, messages: map<nat, Message>,
                        cursor: nat, handed: seq<nat>, left: Round) {
    cursor == CursorAfter(0, run) && handed == start + HandedIn(0, run) && left == LeftAfter(found, run, messages)
  }

  lemma OneMore(start: seq<nat>, found: Round, run: seq<Pass>, messages: map<nat, Message>,
                cursor: nat, handed: seq<nat>, left: Round, p: Pass)
    requires SoFar(start, found, run, messages, cursor, handed, left)
    ensures SoFar(start, found, run + [p], messages,
                  ScanIn(cursor, p).next, handed + HandedBy(cursor, p), LeftBy(cursor, p, messages))
  {
    PassesAppend(0, run, p);
    assert (run + [p])[..|run + [p]| - 1] == run;
    Reassociate(start, HandedIn(0, run), HandedBy(cursor, p));
  }

  lemma RunOne(run: seq<Pass>, passes: seq<Pass>, i: nat)
    requires i < |passes|
    ensures run + UntilStop(passes[i..]) ==
              if passes[i].stop.Never? then run + [passes[i]] + UntilStop(passes[i + 1..]) else run + [passes[i]]
  {
    assert passes[i..][0] == passes[i] && passes[i..][1..] == passes[i + 1..];
  }
}
