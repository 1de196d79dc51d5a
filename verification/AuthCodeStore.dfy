/** The store of pending authorization codes (stores.go): capped, expiring, single use.
  *
  * The class works on its map in place.  Each of its methods is specified by Apply, a function on the
  * map's value; what a whole history of calls means is then proved about Replay, which folds Apply.
  */
module AuthCodes {
  import opened Common

  const MAX_AUTH_CODES := 10000
  const CODE_LIFETIME := 10 * MINUTE
  const SWEEP_INTERVAL := 5 * MINUTE

  datatype AuthCodeEntry = AuthCodeEntry(
    clientID: string, codeChallenge: string, redirectURI: string,
    email: string, requestToken: string, expiresAt: int)

  type Entries = map<string, AuthCodeEntry>

  /** One critical section of the store, with the time its clock showed. */
  datatype CodeOp =
    | Generate(code: string, entry: AuthCodeEntry, at: int)
    | Consume(code: string, at: int)
    | Sweep(at: int)

  predicate HasRoom(m: Entries) {
    |m| < MAX_AUTH_CODES
  }

  /** The code can still be exchanged at the given time. */
  predicate Live(m: Entries, code: string, at: int) {
    code in m && at <= m[code].expiresAt
  }

  function Apply(m: Entries, op: CodeOp): Entries {
    match op
    case Generate(code, entry, at) =>
      if HasRoom(m) then m[code := entry.(expiresAt := at + CODE_LIFETIME)] else m
    case Consume(code, _) => m - {code}
    case Sweep(at) => map c | c in m && at <= m[c].expiresAt :: m[c]
  }

  class AuthCodeStore {
    var entries: Entries

    constructor ()
      ensures entries == map[]
    {
      entries := map[];
    }

    /** `code` is the value randomHex drew; None stands for ErrAuthCodeStoreFull. */
    method Generate(code: string, entry: AuthCodeEntry, now: int) returns (r: Option<string>)
      modifies this
      ensures r == if |old(entries)| < 10_000 then Some(code) else None
      ensures r.Some? ==> entries == old(entries)[code := entry.(expiresAt := now + 600 * 1_000_000_000)]
      ensures r.None? ==> entries == old(entries)
      ensures entries == Apply(old(entries), CodeOp.Generate(code, entry, now))
    {
      var stamped := entry.(expiresAt := now + CODE_LIFETIME);
      if |entries| >= MAX_AUTH_CODES {
        return None;
      }
      entries := entries[code := stamped];
      return Some(code);
    }

    method Consume(code: string, now: int) returns (r: Option<AuthCodeEntry>)
      modifies this
      ensures r == if Live(old(entries), code, now) then Some(old(entries)[code]) else None
      ensures r.Some? <==> code in old(entries) && now <= old(entries)[code].expiresAt
      ensures entries == old(entries) - {code}
      ensures entries == Apply(old(entries), CodeOp.Consume(code, now))
    {
      if code !in entries || now > entries[code].expiresAt {
        entries := entries - {code};
        return None;
      }
      var entry := entries[code];
      entries := entries - {code};
      return Some(entry);
    }

    /** One tick of the background sweeper; the map is visited in no particular order. */
    method Cleanup(now: int)
      modifies this
      ensures entries == Apply(old(entries), Sweep(now))
      ensures forall c :: c in entries <==> c in old(entries) && now <= old(entries)[c].expiresAt
      ensures forall c | c in entries :: entries[c] == old(entries)[c]
    {
      var todo := entries.Keys;
      while todo != {}
        invariant todo <= entries.Keys <= old(entries).Keys
        invariant forall c | c in entries :: entries[c] == old(entries)[c]
        invariant forall c | c in old(entries) && c !in todo :: c in entries <==> now <= old(entries)[c].expiresAt
        decreases todo
      {
        var c :| c in todo;
        todo := todo - {c};
        if now > entries[c].expiresAt {
          entries := entries - {c};
        }
      }
    }
  }

  // ----- Whole histories -----

  type History = seq<CodeOp>

  function Replay(h: History): Entries {
    if h == [] then map[] else Apply(Replay(h[..|h| - 1]), h[|h| - 1])
  }

  /** Call i handed `code` to its caller. */
  predicate IssuedAt(h: History, i: nat, code: string) {
    i < |h| && h[i].Generate? && h[i].code == code && HasRoom(Replay(h[..i]))
  }

  /** Call j presented `code`. */
  predicate PresentedAt(h: History, j: nat, code: string) {
    j < |h| && h[j].Consume? && h[j].code == code
  }

  /** Call j took `code` out of the store while it was still good. */
  ghost predicate RedeemedAt(h: History, j: nat, code: string) {
    PresentedAt(h, j, code) && Live(Replay(h[..j]), code, h[j].at)
  }

  /** Call j, a presentation or a sweep, threw `code` away because it had expired. */
  ghost predicate DiscardedAt(h: History, j: nat, code: string) {
    j < |h| && (h[j].Sweep? || PresentedAt(h, j, code))
    && var m := Replay(h[..j]); code in m && h[j].at > m[code].expiresAt
  }

  /** The clock never runs backwards and random codes do not repeat. */
  ghost predicate Orderly(h: History) {
    && (forall i, j | 0 <= i < j < |h| :: h[i].at <= h[j].at)
    && (forall i, j | 0 <= i < j < |h| && h[i].Generate? && h[j].Generate? :: h[i].code != h[j].code)
  }

  /** Some call of h tried to store `code`. */
  ghost predicate Issues(h: History, code: string) {
    exists i :: 0 <= i < |h| && h[i].Generate? && h[i].code == code
  }

  ghost predicate NotBefore(h: History, t: int) {
    forall i | 0 <= i < |h| :: h[i].at <= t
  }

  lemma ReplaySteps(h: History)
    requires h != []
    ensures Replay(h) == Apply(Replay(h[..|h| - 1]), h[|h| - 1])
  {
  }

  lemma CallExtends(h: History, op: CodeOp)
    requires Orderly(h) && NotBefore(h, op.at)
    requires op.Generate? ==> !Issues(h, op.code)
    ensures Orderly(h + [op]) && NotBefore(h + [op], op.at) && Replay(h + [op]) == Apply(Replay(h), op)
  {
    var g := h + [op];
    assert g[..|h|] == h;
    forall i, j | 0 <= i < j < |g|
      ensures g[i].at <= g[j].at
      ensures g[i].Generate? && g[j].Generate? ==> g[i].code != g[j].code
    {
      assert g[i] == h[i];
    }
  }

  lemma PrefixAgrees(h: History, i: nat, code: string)
    requires i < |h| - 1
    ensures var p := h[..|h| - 1];
            && (IssuedAt(p, i, code) <==> IssuedAt(h, i, code))
            && (RedeemedAt(p, i, code) <==> RedeemedAt(h, i, code))
            && (DiscardedAt(p, i, code) <==> DiscardedAt(h, i, code))
  {
    assert h[..|h| - 1][..i] == h[..i];
  }

  ghost predicate UnpresentedSince(h: History, i: nat, code: string) {
    forall j: nat | i < j < |h| :: !PresentedAt(h, j, code)
  }

  lemma UnpresentedGrows(h: History, i: nat, code: string)
    requires h != [] && UnpresentedSince(h[..|h| - 1], i, code) && !PresentedAt(h, |h| - 1, code)
    ensures UnpresentedSince(h, i, code)
  {
    forall j: nat | i < j < |h| - 1
      ensures !PresentedAt(h, j, code)
    {
      assert !PresentedAt(h[..|h| - 1], j, code);
    }
  }

  /** A code in the store was issued by exactly one call, still has that call's entry, and was not presented since. */
  lemma {:induction false} PendingHasOrigin(h: History, code: string) returns (i: nat)
    requires Orderly(h) && code in Replay(h)
    ensures IssuedAt(h, i, code)
    ensures Replay(h)[code] == h[i].entry.(expiresAt := h[i].at + CODE_LIFETIME)
    ensures UnpresentedSince(h, i, code)
  {
    var n := |h| - 1;
    var p := h[..n];
    if h[n].Generate? && h[n].code == code && HasRoom(Replay(p)) {
      i := n;
    } else {
      i := PendingHasOrigin(p, code);
      PrefixAgrees(h, i, code);
      assert !PresentedAt(h, n, code);
      UnpresentedGrows(h, i, code);
    }
  }

  lemma StaysThroughOneCall(m: Entries, op: CodeOp, code: string, t: int)
    requires Live(m, code, t) && op.at <= t
    requires !op.Sweep? ==> op.code != code
    ensures Live(Apply(m, op), code, t) && Apply(m, op)[code] == m[code]
  {
  }

  /** An issued code that nobody presented is still in the store until its ten minutes have passed. */
  lemma {:induction false} UnpresentedStays(h: History, code: string, i: nat, t: int)
    requires Orderly(h) && NotBefore(h, t)
    requires IssuedAt(h, i, code) && t <= h[i].at + CODE_LIFETIME
    requires UnpresentedSince(h, i, code)
    ensures code in Replay(h)
    ensures Replay(h)[code] == h[i].entry.(expiresAt := h[i].at + CODE_LIFETIME)
    decreases |h|
  {
    var n := |h| - 1;
    var p := h[..n];
    if i == n {
      ReplaySteps(h);
    } else {
      hide Replay, Apply;
      PrefixAgrees(h, i, code);
      UnpresentedShrinks(h, i, code);
      UnpresentedStays(p, code, i, t);
      assert !PresentedAt(h, n, code);
      assert h[n].Generate? ==> h[n].code != h[i].code;
      StaysThroughOneCall(Replay(p), h[n], code, t);
      ReplaySteps(h);
    }
  }

  lemma UnpresentedShrinks(h: History, i: nat, code: string)
    requires h != [] && UnpresentedSince(h, i, code)
    ensures UnpresentedSince(h[..|h| - 1], i, code)
  {
    var p := h[..|h| - 1];
    forall j: nat | i < j < |p|
      ensures !PresentedAt(p, j, code)
    {
      assert !PresentedAt(h, j, code);
    }
  }

  /** Consume is decided by the calls that went before, wherever the sweeper's ticks fall among them. */
  lemma ConsumeIsDecidedByHistory(h: History, code: string, t: int)
    requires Orderly(h) && NotBefore(h, t)
    ensures Live(Replay(h), code, t)
       <==> exists i: nat :: IssuedAt(h, i, code) && t <= h[i].at + 10 * MINUTE
                          && UnpresentedSince(h, i, code)
  {
    if Live(Replay(h), code, t) {
      var i := PendingHasOrigin(h, code);
    }
    if i: nat :| IssuedAt(h, i, code) && t <= h[i].at + CODE_LIFETIME && UnpresentedSince(h, i, code) {
      UnpresentedStays(h, code, i, t);
    }
  }

  function Unswept(h: History): History {
    if h == [] then []
    else
      var op := h[|h| - 1];
      Unswept(h[..|h| - 1]) + if op.Sweep? then [] else [op]
  }

  /** No call ever found the store full. */
  predicate NeverFull(h: History) {
    h == [] || (NeverFull(h[..|h| - 1]) && (h[|h| - 1].Generate? ==> HasRoom(Replay(h[..|h| - 1]))))
  }

  /** The one store is the other without some codes that no longer count at time t. */
  ghost predicate SameButExpired(swept: Entries, unswept: Entries, t: int) {
    && (forall c | c in swept :: c in unswept && swept[c] == unswept[c])
    && (forall c | c in unswept && c !in swept :: unswept[c].expiresAt < t)
  }

  lemma CallKeepsThemAlike(m: Entries, m': Entries, op: CodeOp, t: int)
    requires SameButExpired(m, m', t) && op.at <= t
    requires op.Generate? ==> HasRoom(m')
    ensures SameButExpired(Apply(m, op), if op.Sweep? then m' else Apply(m', op), t)
  {
    assert |m.Keys| <= |m'.Keys| by {
      SmallerDomain(m.Keys, m'.Keys);
    }
  }

  lemma {:induction false} SweepsDropOnlyExpired(h: History, t: int)
    requires Orderly(h) && NotBefore(h, t) && NeverFull(Unswept(h))
    ensures SameButExpired(Replay(h), Replay(Unswept(h)), t)
  {
    hide Apply, SameButExpired;
    if h == [] {
      NothingDiffers(Replay(h), t);
    } else {
      var p, op := h[..|h| - 1], h[|h| - 1];
      var u := Unswept(p);
      assert Unswept(h) == if op.Sweep? then u else u + [op];
      assert (u + [op])[..|u|] == u;
      SweepsDropOnlyExpired(p, t);
      CallKeepsThemAlike(Replay(p), Replay(u), op, t);
    }
  }

  lemma NothingDiffers(m: Entries, t: int)
    ensures SameButExpired(m, m, t)
  {
  }

  /** The sweeper cannot be noticed but by the room it makes: while there is room anyway, every history answers like
    * the same one without any ticks. */
  lemma SweepsAreInvisible(h: History, code: string, t: int)
    requires Orderly(h) && NotBefore(h, t) && NeverFull(Unswept(h))
    ensures Live(Replay(h), code, t) <==> Live(Replay(Unswept(h)), code, t)
    ensures Live(Replay(h), code, t) ==> Replay(h)[code] == Replay(Unswept(h))[code]
  {
    SweepsDropOnlyExpired(h, t);
  }

  // ----- Conservation -----

  ghost predicate WasIssued(h: History, code: string) { exists i: nat :: IssuedAt(h, i, code) }
  ghost predicate WasRedeemed(h: History, code: string) { exists j: nat :: RedeemedAt(h, j, code) }
  ghost predicate WasDiscarded(h: History, code: string) { exists j: nat :: DiscardedAt(h, j, code) }

  lemma IssuedStepsBack(h: History, code: string)
    requires h != []
    ensures WasIssued(h, code) <==> WasIssued(h[..|h| - 1], code) || IssuedAt(h, |h| - 1, code)
  {
    hide Replay, Apply;
    var p := h[..|h| - 1];
    if i: nat :| IssuedAt(h, i, code) && i < |h| - 1 {
      PrefixAgrees(h, i, code);
    }
    if i: nat :| IssuedAt(p, i, code) {
      PrefixAgrees(h, i, code);
    }
  }

  lemma RedeemedStepsBack(h: History, code: string)
    requires h != []
    ensures WasRedeemed(h, code) <==> WasRedeemed(h[..|h| - 1], code) || RedeemedAt(h, |h| - 1, code)
  {
    hide Replay, Apply;
    var p := h[..|h| - 1];
    if i: nat :| RedeemedAt(h, i, code) && i < |h| - 1 {
      PrefixAgrees(h, i, code);
    }
    if i: nat :| RedeemedAt(p, i, code) {
      PrefixAgrees(h, i, code);
    }
  }

  lemma DiscardedStepsBack(h: History, code: string)
    requires h != []
    ensures WasDiscarded(h, code) <==> WasDiscarded(h[..|h| - 1], code) || DiscardedAt(h, |h| - 1, code)
  {
    hide Replay, Apply;
    var p := h[..|h| - 1];
    if i: nat :| DiscardedAt(h, i, code) && i < |h| - 1 {
      PrefixAgrees(h, i, code);
    }
    if i: nat :| DiscardedAt(p, i, code) {
      PrefixAgrees(h, i, code);
    }
  }

  /** Every code ever issued is in exactly one place: pending, redeemed, or discarded as expired. */
  lemma {:induction false} CodesAreConserved(h: History, code: string)
    requires Orderly(h)
    ensures WasIssued(h, code) <==> code in Replay(h) || WasRedeemed(h, code) || WasDiscarded(h, code)
    ensures !(code in Replay(h) && WasRedeemed(h, code))
    ensures !(code in Replay(h) && WasDiscarded(h, code))
    ensures !(WasRedeemed(h, code) && WasDiscarded(h, code))
    decreases |h|
  {
    if h != [] {
      var n := |h| - 1;
      CodesAreConserved(h[..n], code);
      IssuedStepsBack(h, code);
      RedeemedStepsBack(h, code);
      DiscardedStepsBack(h, code);
      if IssuedAt(h, n, code) && WasIssued(h[..n], code) {
        assert false;
      }
    }
  }

  lemma SmallerDomain(a: set<string>, b: set<string>)
    ensures a <= b ==> |a| <= |b|
  {
    if a <= b {
      assert b == a + (b - a);
    }
  }

  lemma ApplyKeepsTheCap(m: Entries, op: CodeOp)
    requires |m| <= MAX_AUTH_CODES
    ensures |Apply(m, op)| <= MAX_AUTH_CODES
  {
    match op
    case Generate(code, _, _) =>
      assert HasRoom(m) ==> Apply(m, op).Keys == m.Keys + {code};
    case _ =>
      SmallerDomain(Apply(m, op).Keys, m.Keys);
  }

  lemma {:induction false} PendingIsCapped(h: History)
    ensures |Replay(h)| <= 10_000
    decreases |h|
  {
    if h != [] {
      PendingIsCapped(h[..|h| - 1]);
      ApplyKeepsTheCap(Replay(h[..|h| - 1]), h[|h| - 1]);
    }
  }

  // ----- The sweeper's clock -----

  /** The last tick, or the time the store was created. */
  function LastSweep(h: History, start: int): int {
    if h == [] then start
    else if h[|h| - 1].Sweep? then h[|h| - 1].at
    else LastSweep(h[..|h| - 1], start)
  }

  /** Up to time t no more than five minutes ever pass without a tick. */
  ghost predicate Ticking(h: History, start: int, t: int) {
    && t <= LastSweep(h, start) + SWEEP_INTERVAL
    && forall i: nat | i < |h| :: start <= h[i].at <= LastSweep(h[..i], start) + SWEEP_INTERVAL
  }

  lemma {:induction false} PendingOutlivesNoTick(h: History, start: int, code: string)
    requires Orderly(h) && (forall i: nat | i < |h| :: start <= h[i].at)
    requires code in Replay(h)
    ensures LastSweep(h, start) <= Replay(h)[code].expiresAt
    ensures h != [] ==> LastSweep(h, start) <= h[|h| - 1].at
    decreases |h|
  {
    var n := |h| - 1;
    LastSweepIsPast(h, start);
    if h[n].Generate? && h[n].code == code && HasRoom(Replay(h[..n])) {
    } else {
      PendingOutlivesNoTick(h[..n], start, code);
    }
  }

  lemma {:induction false} LastSweepIsPast(h: History, start: int)
    requires Orderly(h) && h != [] && (forall i: nat | i < |h| :: start <= h[i].at)
    ensures LastSweep(h, start) <= h[|h| - 1].at
    decreases |h|
  {
    var n := |h| - 1;
    if n > 0 && !h[n].Sweep? {
      LastSweepIsPast(h[..n], start);
      assert h[n - 1].at <= h[n].at;
    }
  }

  /** While the sweeper ticks, no code stays in the store longer than fifteen minutes after it was issued. */
  lemma NoCodeOutstaysFifteenMinutes(h: History, start: int, t: int, code: string) returns (i: nat)
    requires Orderly(h) && Ticking(h, start, t) && code in Replay(h)
    ensures IssuedAt(h, i, code) && t <= h[i].at + 15 * MINUTE
  {
    PendingOutlivesNoTick(h, start, code);
    i := PendingHasOrigin(h, code);
  }

  /** So a full store always recovers: fifteen minutes on, nothing that filled it is left. */
  lemma FullStoreRecovers(h: History, start: int, k: nat, t: int)
    requires Orderly(h) && Ticking(h, start, t) && k <= |h|
    requires forall i: nat | i < k :: h[i].at + 15 * MINUTE < t
    ensures Replay(h).Keys !! Replay(h[..k]).Keys
  {
    if code :| code in Replay(h) && code in Replay(h[..k]) {
      var j := PendingHasOrigin(h[..k], code);
      var i := NoCodeOutstaysFifteenMinutes(h, start, t, code);
      assert false;
    }
  }
}
