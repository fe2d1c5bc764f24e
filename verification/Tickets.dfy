/** One-time tickets at the granularity of Redis commands: minting is HSET then EXPIRE, redeeming is
    HGETALL then DEL, and the commands of different requests interleave freely. */
module Tickets {
  import opened Wrappers
  import opened Keys
  import opened Redis
  import opened TokenStore

  /** minting: tickets stored by a request that has not set their expiry yet.
      redeeming: tickets a request has read and not deleted yet.
      minted and handedOut are history: every ticket ever stored, and when each was handed out. */
  datatype State = State(
    now: int,
    store: Store<Key>,
    minting: map<nat, Key>,
    redeeming: map<nat, Key>,
    minted: set<Key>,
    handedOut: map<Key, int>)

  datatype Step =
    | Tick(seconds: nat)
    | StoreTicket(request: nat, ticket: Key, fields: Fields)   // HSET
    | SetExpiry(request: nat)                                  // EXPIRE; the ticket is handed out
    | Read(request: nat, ticket: Key)                          // HGETALL
    | Remove(request: nat)                                     // DEL

  /** Tickets are fresh random values with something stored under them; a request finishes one operation
      before it begins another. */
  predicate Enabled(s: State, step: Step) {
    match step
    case Tick(_) => true
    case StoreTicket(r, k, fields) =>
      IsTicket(k) && k !in s.minted && fields != map[] && r !in s.minting && r !in s.redeeming
    case SetExpiry(r) => r in s.minting && IsTicket(s.minting[r])
    case Read(r, k) => IsTicket(k) && r !in s.minting && r !in s.redeeming
    case Remove(r) => r in s.redeeming
  }

  function Exec(s: State, step: Step): State
    requires Enabled(s, step)
  {
    match step
    case Tick(seconds) => s.(now := s.now + seconds)
    case StoreTicket(r, k, fields) =>
      s.(store := HSet(s.store, s.now, k, fields), minting := s.minting[r := k], minted := s.minted + {k})
    case SetExpiry(r) =>
      var k := s.minting[r];
      s.(store := Expire(s.store, s.now, k, TicketTtl(k)), minting := s.minting - {r},
         handedOut := s.handedOut[k := s.now])
    case Read(r, k) => if FindHash(s.store, s.now, k).Some? then s.(redeeming := s.redeeming[r := k]) else s
    case Remove(r) => s.(store := Del(s.store, s.redeeming[r]), redeeming := s.redeeming - {r})
  }

  ghost predicate IsRun(states: seq<State>, steps: seq<Step>) {
    && |states| == |steps| + 1
    && states[0].store == map[] && states[0].minting == map[] && states[0].redeeming == map[]
    && states[0].minted == {} && states[0].handedOut == map[]
    && forall i :: 0 <= i < |steps| ==> Enabled(states[i], steps[i]) && states[i + 1] == Exec(states[i], steps[i])
  }

  /** A ticket under minting belongs to one request and has not been handed out; a ticket that was handed
      out and still exists expires its lifetime after that moment; one without an expiry is being minted. */
  ghost predicate TicketOk(s: State, k: Key) {
    && (k in s.store ==> k in s.minted && s.store[k].value.Hash?)
    && (k in s.handedOut ==>
          && k in s.minted && IsTicket(k) && s.handedOut[k] <= s.now
          && (k in s.store ==> s.store[k].expiry == Some(s.handedOut[k] + TicketTtl(k))))
    && (k in s.store && k !in s.handedOut ==>
          s.store[k].expiry.None? && exists r :: r in s.minting && s.minting[r] == k)
  }

  ghost predicate Inv(s: State) {
    && (forall k :: TicketOk(s, k))
    && (forall r :: r in s.minting ==> s.minting[r] in s.minted && s.minting[r] !in s.handedOut)
    && (forall q, r :: q in s.minting && r in s.minting && s.minting[q] == s.minting[r] ==> q == r)
    && (forall r :: r in s.redeeming ==> s.redeeming[r] in s.minted)
  }

  lemma OthersKeepTicket(s: State, s': State, k: Key)
    requires TicketOk(s, k) && s.now <= s'.now && s.minted <= s'.minted
    requires k in s'.store <==> k in s.store
    requires k in s.store ==> s'.store[k] == s.store[k]
    requires k in s'.handedOut <==> k in s.handedOut
    requires k in s.handedOut ==> s'.handedOut[k] == s.handedOut[k]
    requires forall r :: r in s.minting && s.minting[r] == k ==> r in s'.minting && s'.minting[r] == k
    ensures TicketOk(s', k)
  {
  }

  lemma StepKeepsTicket(s: State, step: Step, k: Key)
    requires Inv(s) && Enabled(s, step)
    ensures TicketOk(Exec(s, step), k)
  {
    var s' := Exec(s, step);
    assert TicketOk(s, k);
    match step
    case StoreTicket(r, t, _) =>
      if k == t { assert r in s'.minting && s'.minting[r] == k; } else { OthersKeepTicket(s, s', k); }
    case SetExpiry(r) =>
      if k != s.minting[r] { OthersKeepTicket(s, s', k); }
    case Remove(r) =>
      if k != s.redeeming[r] { OthersKeepTicket(s, s', k); }
    case _ => OthersKeepTicket(s, s', k);
  }

  lemma StepKeeps(s: State, step: Step)
    requires Inv(s) && Enabled(s, step)
    ensures Inv(Exec(s, step))
  {
    var s' := Exec(s, step);
    forall k ensures TicketOk(s', k) {
      StepKeepsTicket(s, step, k);
    }
    if step.Read? || step.StoreTicket? {
      assert TicketOk(s, step.ticket);
    }
  }

  lemma {:induction false} RunInv(states: seq<State>, steps: seq<Step>, n: nat)
    requires IsRun(states, steps) && n < |states|
    ensures Inv(states[n])
  {
    hide Exec;
    if n > 0 {
      RunInv(states, steps, n - 1);
      StepKeeps(states[n - 1], steps[n - 1]);
    }
  }

  /** A handed-out ticket that still exists has its expiry set: 60 seconds, 24 hours or 150 minutes after
      it was handed out. */
  lemma HandedOutTicketsExpire(states: seq<State>, steps: seq<Step>, n: nat, k: Key)
    requires IsRun(states, steps) && n < |states|
    requires k in states[n].handedOut && k in states[n].store
    ensures IsTicket(k) && states[n].store[k].expiry == Some(states[n].handedOut[k] + TicketTtl(k))
  {
    RunInv(states, steps, n);
    assert TicketOk(states[n], k);
  }

  predicate Gone(s: State, k: Key) {
    k in s.minted && !Live(s.store, s.now, k)
  }

  lemma StepKeepsGone(s: State, step: Step, k: Key)
    requires Inv(s) && Enabled(s, step) && Gone(s, k)
    ensures Gone(Exec(s, step), k)
  {
    assert TicketOk(s, k);
  }

  lemma {:induction false} GoneStaysGone(states: seq<State>, steps: seq<Step>, m: nat, n: nat, k: Key)
    requires IsRun(states, steps) && m <= n < |states| && Gone(states[m], k)
    ensures Gone(states[n], k)
    decreases n
  {
    hide Inv, Exec, Gone;
    if m < n {
      GoneStaysGone(states, steps, m, n - 1, k);
      RunInv(states, steps, n - 1);
      StepKeepsGone(states[n - 1], steps[n - 1], k);
    }
  }

  /** Step i reads ticket k and finds it. */
  predicate Redeems(states: seq<State>, steps: seq<Step>, i: nat, k: Key)
    requires |states| == |steps| + 1 && i < |steps|
  {
    steps[i].Read? && steps[i].ticket == k && FindHash(states[i].store, states[i].now, k).Some?
  }

  /** Step i deletes ticket k. */
  predicate Removes(states: seq<State>, steps: seq<Step>, i: nat, k: Key)
    requires |states| == |steps| + 1 && i < |steps|
  {
    steps[i].Remove? && steps[i].request in states[i].redeeming && states[i].redeeming[steps[i].request] == k
  }

  /** Every successful read of a ticket comes before the first DEL of that ticket, whichever requests the
      commands belong to. */
  lemma ReadsPrecedeRemoval(states: seq<State>, steps: seq<Step>, i: nat, j: nat, k: Key)
    requires IsRun(states, steps) && i < |steps| && j < |steps|
    requires Removes(states, steps, i, k)
    requires Redeems(states, steps, j, k)
    ensures j < i
  {
    if i < j {
      RunInv(states, steps, i);
      assert Gone(states[i + 1], k);
      GoneStaysGone(states, steps, i + 1, j, k);
    }
  }

  /** ... and before the ticket's lifetime is over. */
  lemma ReadsPrecedeExpiry(states: seq<State>, steps: seq<Step>, j: nat, k: Key)
    requires IsRun(states, steps) && j < |steps| && Redeems(states, steps, j, k)
    ensures IsTicket(k) && (k in states[j].handedOut ==> states[j].now < states[j].handedOut[k] + TicketTtl(k))
  {
    RunInv(states, steps, j);
    assert TicketOk(states[j], k);
    assert Enabled(states[j], steps[j]);
  }

  lemma StepKeepsStored(s: State, step: Step, k: Key)
    requires Inv(s) && Enabled(s, step) && k in s.store
    requires !(step.Remove? && s.redeeming[step.request] == k)
    ensures k in Exec(s, step).store && Exec(s, step).store[k].value == s.store[k].value
  {
    assert TicketOk(s, k);
  }

  /** A stored ticket stays until its first DEL. */
  lemma {:induction false} StoredStays(states: seq<State>, steps: seq<Step>, m: nat, n: nat, k: Key)
    requires IsRun(states, steps) && m < n < |states|
    requires steps[m].StoreTicket? && steps[m].ticket == k
    requires forall i :: m < i < n ==> !Removes(states, steps, i, k)
    ensures k in states[n].store && states[n].store[k].value == Hash(steps[m].fields) && k in states[n].minted
    decreases n
  {
    hide Inv;
    RunInv(states, steps, n - 1);
    assert Enabled(states[n - 1], steps[n - 1]);
    if n == m + 1 {
      NewTicket(states[m], k);
    } else {
      StoredStays(states, steps, m, n - 1, k);
      assert !Removes(states, steps, n - 1, k);
      StepKeepsStored(states[n - 1], steps[n - 1], k);
    }
  }

  lemma NewTicket(s: State, k: Key)
    requires Inv(s) && k !in s.minted
    ensures k !in s.store
  {
    assert TicketOk(s, k);
  }

  lemma LivesAsHandedOut(s: State, k: Key)
    requires Inv(s) && k in s.store && IsTicket(k)
    ensures Live(s.store, s.now, k) <==> (k in s.handedOut ==> s.now < s.handedOut[k] + TicketTtl(k))
  {
    assert TicketOk(s, k);
  }

  /** Exactly which reads of a stored ticket succeed, under every interleaving: those that come before its
      first DEL and before the end of its lifetime. Any number of them can. */
  lemma RedeemsExactly(states: seq<State>, steps: seq<Step>, m: nat, j: nat, k: Key)
    requires IsRun(states, steps) && m < j < |steps|
    requires steps[m].StoreTicket? && steps[m].ticket == k && steps[j].Read? && steps[j].ticket == k
    ensures IsTicket(k)
    ensures var s := states[j];
            Redeems(states, steps, j, k)
            <==> && (forall i :: m < i < j ==> !Removes(states, steps, i, k))
                 && (k in s.handedOut ==> s.now < s.handedOut[k] + TicketTtl(k))
  {
    hide Inv, Exec;
    RunInv(states, steps, j);
    assert Enabled(states[m], steps[m]);
    if i :| m < i < j && Removes(states, steps, i, k) {
      if Redeems(states, steps, j, k) {
        ReadsPrecedeRemoval(states, steps, i, j, k);
      }
    } else {
      StoredStays(states, steps, m, j, k);
      LivesAsHandedOut(states[j], k);
    }
  }

  /** When every redemption deletes right after it read, no ticket is redeemed twice. */
  lemma SerialRedemptionOnce(states: seq<State>, steps: seq<Step>, i: nat, j: nat, k: Key)
    requires IsRun(states, steps) && i < j < |steps|
    requires Redeems(states, steps, i, k) && steps[i + 1] == Remove(steps[i].request)
    ensures !Redeems(states, steps, j, k)
  {
    var r := steps[i].request;
    assert Enabled(states[i], steps[i]) && states[i + 1] == Exec(states[i], steps[i]);
    assert states[i + 1].redeeming[r] == k;
    if j > i + 1 && Redeems(states, steps, j, k) {
      ReadsPrecedeRemoval(states, steps, i + 1, j, k);
    }
  }

  /** Two requests that both read before either deletes both succeed: one-time use needs the DEL. */
  lemma ConcurrentReadsBothSucceed(s: State, q: nat, r: nat, k: Key)
    requires IsTicket(k) && FindHash(s.store, s.now, k).Some?
    requires q != r && q !in s.minting && q !in s.redeeming && r !in s.minting && r !in s.redeeming
    ensures var s1 := Exec(s, Read(q, k));
            && Enabled(s1, Read(r, k))
            && var s2 := Exec(s1, Read(r, k));
               q in s2.redeeming && s2.redeeming[q] == k && r in s2.redeeming && s2.redeeming[r] == k
  {
  }

  /** Uninterrupted, the two commands of a redemption are the repository's one operation. */
  lemma UninterruptedIsTake(s: State, r: nat, k: Key)
    requires IsTicket(k) && r !in s.minting && r !in s.redeeming
    ensures var s1 := Exec(s, Read(r, k));
            (if r in s1.redeeming then Exec(s1, Remove(r)).store else s1.store) == TakeHash(s.store, s.now, k).0
  {
  }

  /** Uninterrupted, the two commands of minting are the repository's one operation. */
  lemma UninterruptedIsPut(s: State, r: nat, k: Key, fields: Fields)
    requires Enabled(s, StoreTicket(r, k, fields))
    ensures var s1 := Exec(s, StoreTicket(r, k, fields));
            && Enabled(s1, SetExpiry(r))
            && Exec(s1, SetExpiry(r)).store == PutHash(s.store, s.now, k, fields, TicketTtl(k))
  {
  }
}
