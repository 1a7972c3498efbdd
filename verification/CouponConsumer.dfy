// The stream consumer and its message handler, as one consumer thread runs them among all other threads.
module CouponConsumer {
  import opened Wrappers
  import opened CouponStores
  import opened CouponSteps
  import opened CouponInvariant
  import opened CouponPreservation
  import opened CouponRuns
  import opened CouponTheorems
  import opened CouponWorld

  // THROWN: an exception left handle or processRecord.
  datatype Outcome = SUCCESS | POISON | RETRY | THROWN

  // How a call that may throw ends: with a transient exception, or with one that isTransient does not recognise.
  datatype Fate = Fine | Transient | Fatal

  // ---- isTransient ----

  predicate OccursAt(s: string, w: string, i: int) { 0 <= i <= |s| - |w| && s[i..i + |w|] == w }

  predicate Contains(s: string, w: string) { exists i :: 0 <= i <= |s| && OccursAt(s, w, i) }

  // Of the letters that have two cases, those from A to Z.
  function LowerLetter(c: char): char { if 'A' <= c <= 'Z' then (c as int + 32) as char else c }

  function Lower(s: string): (r: string)
    ensures |r| == |s| && forall i :: 0 <= i < |s| ==> r[i] == LowerLetter(s[i])
  {
    seq(|s|, i requires 0 <= i < |s| => LowerLetter(s[i]))
  }

  const NO_STOCK := "\U{5E93}\U{5B58}\U{4E0D}\U{8DB3}"
  const STOCK_MESSAGE := NO_STOCK + "\U{FF0C}\U{6263}\U{51CF}\U{5931}\U{8D25}"

  // A runtime exception that is not a data access failure: by its class, or by words in its message.
  predicate IsTransient(marker: bool, message: Option<string>) {
    marker
    || (message.Some? &&
        var lower := Lower(message.value);
        || Contains(lower, "timeout")
        || Contains(lower, "deadlock")
        || Contains(lower, "lock")
        || Contains(lower, NO_STOCK)
        || Contains(lower, "connection"))
  }

  // The exception of createVoucherOrder on an empty stock is retried, never isolated.
  lemma StockFailureIsRetried()
    ensures IsTransient(false, Some(STOCK_MESSAGE))
  {
    var lower := Lower(STOCK_MESSAGE);
    assert forall i :: 0 <= i < |NO_STOCK| ==> lower[i] == NO_STOCK[i];
    assert OccursAt(lower, NO_STOCK, 0);
  }

  // At i the text reads as the word, in letters of either case.
  ghost predicate Reads(text: string, word: string, i: int) {
    0 <= i <= |text| - |word| && forall j :: 0 <= j < |word| ==> SameLetter(text[i + j], word[j])
  }

  ghost predicate SameLetter(c: char, small: char) {
    c == small || ('A' <= c <= 'Z' && small as int == c as int + 32)
  }

  lemma LowerReads(text: string, word: string, i: int)
    requires forall j :: 0 <= j < |word| ==> !('A' <= word[j] <= 'Z')
    ensures OccursAt(Lower(text), word, i) <==> Reads(text, word, i)
  {
    if 0 <= i <= |text| - |word| {
      var there := Lower(text)[i..i + |word|];
      forall j | 0 <= j < |word| ensures there[j] == word[j] <==> SameLetter(text[i + j], word[j]) {
        assert there[j] == Lower(text)[i + j];
      }
    }
  }

  lemma ContainsReads(text: string, word: string)
    requires forall j :: 0 <= j < |word| ==> !('A' <= word[j] <= 'Z')
    ensures Contains(Lower(text), word) <==> exists i :: Reads(text, word, i)
  {
    forall i ensures OccursAt(Lower(text), word, i) <==> Reads(text, word, i) {
      LowerReads(text, word, i);
    }
  }

  // Exactly four words in a message make its exception transient, in letters of either case.
  lemma TransientMessages(message: string)
    ensures IsTransient(false, Some(message)) <==>
              || (exists i :: Reads(message, "timeout", i))
              || (exists i :: Reads(message, "lock", i))
              || (exists i :: Reads(message, "connection", i))
              || (exists i :: Reads(message, NO_STOCK, i))
  {
    hide Reads, Lower, OccursAt;
    ContainsReads(message, "timeout");
    ContainsReads(message, "deadlock");
    ContainsReads(message, "lock");
    ContainsReads(message, "connection");
    ContainsReads(message, NO_STOCK);
    forall i | Reads(message, "deadlock", i) ensures Reads(message, "lock", i + 4) {
      LockInside(message, i);
    }
  }

  lemma LockInside(message: string, i: int)
    requires Reads(message, "deadlock", i)
    ensures Reads(message, "lock", i + 4)
  {
    assert forall j :: 0 <= j < 4 ==> "lock"[j] == "deadlock"[j + 4];
    forall j | 0 <= j < 4 ensures SameLetter(message[i + 4 + j], "lock"[j]) {
      assert SameLetter(message[i + (j + 4)], "deadlock"[j + 4]);
    }
  }

  // What the surroundings do to one record: the XPENDING lookup, the voucher lookup, the user lock (a busy one is
  // transient), the duplicate checks, the transaction, the unlock, the save of a dead letter, the two hint commands, and
  // the XACK.
  datatype Luck = Luck(
    lookup: bool,
    voucher: bool,
    lock: Fate,
    check: Fate,
    commit: Fate,
    unlock: Fate,
    isolate: bool,
    srem: bool,
    del: bool,
    ack: bool)

  // ---- what each step does ----

  lemma TakeJobStep(s: State, t: int, looked: bool)
    requires t in s.threads && s.threads[t].Working? && s.threads[t].jobs != []
    ensures Enabled(s, TakeJob(t, looked)) && Apply(s, TakeJob(t, looked)) == DoTakeJob(s, t, looked)
  {
  }

  lemma LookupVoucherStep(s: State, t: int)
    requires t in s.threads && s.threads[t].Handling? && s.threads[t].pos < |s.redis.stream|
    ensures Enabled(s, LookupVoucher(t)) && Apply(s, LookupVoucher(t)) == DoLookupVoucher(s, t)
  {
  }

  lemma FailStep(s: State, t: int)
    requires InHandler(s, t)
    ensures Enabled(s, Fail(t)) && Apply(s, Fail(t)) == DoFail(s, t)
  {
  }

  lemma RetryStep(s: State, t: int)
    requires InHandler(s, t)
    ensures Enabled(s, Retry(t)) && Apply(s, Retry(t)) == DoRetry(s, t)
  {
  }

  lemma CheckExistingStep(s: State, t: int)
    requires t in s.threads && s.threads[t].Looked? && s.threads[t].pos < |s.redis.stream|
    ensures Enabled(s, CheckExisting(t)) && Apply(s, CheckExisting(t)) == DoCheckExisting(s, t)
  {
  }

  lemma CommitStep(s: State, t: int)
    requires t in s.threads && s.threads[t].Checked? && s.threads[t].pos < |s.redis.stream|
    ensures Enabled(s, Commit(t)) && Apply(s, Commit(t)) == DoCommit(s, t)
  {
  }

  lemma UnlockStep(s: State, t: int)
    requires t in s.threads && s.threads[t].Applied?
    ensures Enabled(s, Unlock(t)) && Apply(s, Unlock(t)) == DoUnlock(s, t)
  {
  }

  lemma IsolateStep(s: State, t: int)
    requires t in s.threads && s.threads[t].Doomed? && s.threads[t].pos < |s.redis.stream|
    ensures Enabled(s, Isolate(t)) && Apply(s, Isolate(t)) == DoIsolate(s, t)
  {
  }

  lemma ClearHintStep(s: State, t: int, ok: bool)
    requires AtClearHint(s, t)
    ensures Enabled(s, ClearHint(t, ok)) && Apply(s, ClearHint(t, ok)) == DoClearHint(s, t, ok)
  {
  }

  lemma AckStep(s: State, t: int)
    requires AtAck(s, t)
    ensures Enabled(s, Ack(t)) && Apply(s, Ack(t)) == DoAck(s, t)
  {
  }

  // An exception that leaves the record loop: the thread goes on elsewhere, and what it had in hand stays pending.
  lemma ThrowStep(s: State, t: int)
    ensures Enabled(s, Crash(t)) && Apply(s, Crash(t)) == Stop(s, t)
  {
  }

  // ---- what stays true while others run ----

  // The entry at this position, for ever.
  ghost predicate EntryIs(s: State, pos: nat, e: Entry) { pos < |s.redis.stream| && s.redis.stream[pos] == e }

  ghost predicate DurableIn(s: State, e: Entry, outcome: Outcome) {
    match outcome
    case SUCCESS => e.id in s.db.orders
    case POISON => DeadFor(s.db.dead, e.id)
    case _ => true
  }

  lemma StaysTrue(a: State, b: State, pos: nat, e: Entry, outcome: Outcome)
    requires Later(a, b)
    ensures EntryIs(a, pos, e) ==> EntryIs(b, pos, e)
    ensures DurableIn(a, e, outcome) ==> DurableIn(b, e, outcome)
  {
    if outcome.POISON? && DurableIn(a, e, outcome) {
      var i :| 0 <= i < |a.db.dead| && a.db.dead[i].entry.id == e.id;
      assert b.db.dead[i] == a.db.dead[i];
    }
  }

  lemma LetterStays(a: State, b: State, x: DeadLetter)
    requires Later(a, b) && x in a.db.dead
    ensures x in b.db.dead
  {
    var i :| 0 <= i < |a.db.dead| && a.db.dead[i] == x;
    assert b.db.dead[i] == x;
  }

  ghost predicate JobsLeft(s: State, t: int, jobs: seq<Job>) {
    if jobs == [] then Idle(s, t) else t in s.threads && s.threads[t] == Working(jobs)
  }

  ghost predicate At(s: State, t: int, pc: Pc) { t in s.threads && s.threads[t] == pc }

  // A row under the entry's id is what the duplicate checks of createVoucherOrder find, and all they can find.
  lemma RowIsTheEntrys(s: State, pos: nat, e: Entry)
    requires Reachable(s) && EntryIs(s, pos, e)
    ensures HasRowFor(s.db, e) <==> e.id in s.db.orders
  {
    hide Inv;
    ReachableInv(s);
    RowOfEntry(s, pos, e);
  }

  lemma RowOfEntry(s: State, pos: nat, e: Entry)
    requires Inv(s) && EntryIs(s, pos, e)
    ensures HasRowFor(s.db, e) <==> e.id in s.db.orders
  {
    assert IsAccepted(s.redis.orderIds, e);
    forall o | o in s.db.orders && s.db.orders[o].user == e.user && s.db.orders[o].voucher == e.voucher ensures o == e.id {
      assert IsAccepted(s.redis.orderIds, Entry(o, s.db.orders[o].user, s.db.orders[o].voucher));
    }
  }

  // clearProcessingHints: a failing command ends it, and is only logged.
  method ClearProcessingHints(w: World, t: int, pos: nat, luck: Luck, ghost e: Entry, ghost jobs: seq<Job>)
    returns (ghost removed: State)
    requires Reachable(w.s) && At(w.s, t, Settling(pos, ClearProcessing, jobs)) && EntryIs(w.s, pos, e)
    modifies w
    ensures Reachable(w.s) && Later(old(w.s), w.s) && (forall b :: Later(b, old(w.s)) ==> Later(b, w.s))
    ensures w.acks == old(w.acks)
    ensures At(w.s, t, Settling(pos, Acking, jobs)) && EntryIs(w.s, pos, e)
    // removed is the state after the first command; the accept key goes last
    ensures Later(removed, w.s) && (luck.srem ==> (e.user, e.id) !in removed.redis.processing)
    ensures luck.srem && luck.del ==> e.id !in w.s.redis.accept
  {
    hide Reachable, Later, Enabled, Apply;
    ghost var s0 := w.s;
    LaterReflexive(s0);
    w.Pause(t);
    StaysTrue(s0, w.s, pos, e, RETRY);
    ClearHintStep(w.s, t, luck.srem);
    w.Do(ClearHint(t, luck.srem));
    removed := w.s;
    LaterReflexive(removed);
    if luck.srem {
      ghost var s1 := w.s;
      w.Pause(t);
      StaysTrue(s1, w.s, pos, e, RETRY);
      ClearHintStep(w.s, t, luck.del);
      w.Do(ClearHint(t, luck.del));
    }
  }

  // deadLetterService.isolate, then the hints; a letter that is not saved throws.
  method IsolateRecord(w: World, t: int, pos: nat, luck: Luck, ghost e: Entry, ghost reason: Reason,
                       ghost jobs: seq<Job>) returns (outcome: Outcome)
    requires Reachable(w.s) && At(w.s, t, Doomed(pos, reason, jobs)) && EntryIs(w.s, pos, e)
    modifies w
    ensures Reachable(w.s) && Later(old(w.s), w.s) && (forall b :: Later(b, old(w.s)) ==> Later(b, w.s))
    ensures w.acks == old(w.acks) && EntryIs(w.s, pos, e)
    ensures outcome == if luck.isolate then POISON else THROWN
    ensures outcome.THROWN? ==> Idle(w.s, t)
    ensures outcome.POISON? ==>
              && At(w.s, t, Settling(pos, Acking, jobs))
              && DurableIn(w.s, e, POISON) && DeadLetter(pos, e, reason) in w.s.db.dead
  {
    hide Reachable, Later, Enabled, Apply;
    ghost var s0 := w.s;
    w.Pause(t);
    StaysTrue(s0, w.s, pos, e, RETRY);
    if !luck.isolate {
      ThrowStep(w.s, t);
      w.Do(Crash(t));
      return THROWN;
    }
    IsolateStep(w.s, t);
    w.Do(Isolate(t));
    ghost var s1 := w.s;
    assert s1.db.dead[|s1.db.dead| - 1].entry.id == e.id;
    ghost var removed := ClearProcessingHints(w, t, pos, luck, e, jobs);
    StaysTrue(s1, w.s, pos, e, POISON);
    LetterStays(s1, w.s, DeadLetter(pos, e, reason));
    outcome := POISON;
  }

  // What leaves a try block whose finally block unlocks: an exception of the unlock takes the place of any other.
  function Thrown(inner: Fate, unlock: Fate): Fate { if unlock.Fine? then inner else unlock }

  ghost predicate NoStock(s: State, v: int) { !(v in s.db.stock && s.db.stock[v] > 0) }

  // applyWithLock and createVoucherOrder; seen is the moment of the duplicate checks, tx that of the transaction.
  method ApplyWithLock(w: World, t: int, pos: nat, luck: Luck, ghost e: Entry,
                       ghost jobs: seq<Job>) returns (fate: Fate, ghost seen: State, ghost tx: State)
    requires Reachable(w.s) && At(w.s, t, Looked(pos, jobs)) && EntryIs(w.s, pos, e)
    modifies w
    ensures Reachable(w.s) && Later(old(w.s), w.s) && (forall b :: Later(b, old(w.s)) ==> Later(b, w.s))
    ensures w.acks == old(w.acks)
    ensures EntryIs(w.s, pos, e) && Reachable(seen) && EntryIs(seen, pos, e)
    ensures match fate
            case Fine => At(w.s, t, Settling(pos, ClearProcessing, jobs)) && e.id in w.s.db.orders
            case Transient => JobsLeft(w.s, t, jobs)
            case Fatal => At(w.s, t, Doomed(pos, Fault, jobs))
    ensures Later(old(w.s), seen) && Later(seen, tx) && Later(tx, w.s)
    // the record is doomed only by an exception that is not transient
    ensures fate.Fatal? ==> luck.lock.Fatal? || luck.check.Fatal? || luck.commit.Fatal? || luck.unlock.Fatal?
    // without the lock nothing else is tried; with it the unlock is, and has the last word
    ensures !luck.lock.Fine? ==> fate == luck.lock
    ensures luck.lock.Fine? && !luck.unlock.Fine? ==> fate == luck.unlock
    // otherwise the first step that fails decides, and the transaction is not reached when the row is there
    ensures luck.lock.Fine? && luck.unlock.Fine? ==>
              fate == if !luck.check.Fine? then luck.check
                      else if e.id in seen.db.orders then Fine
                      else if !luck.commit.Fine? then luck.commit
                      else if NoStock(tx, e.voucher) then Transient
                      else Fine
    // the stock is only gone for a consumer that lost the race for its own entry
    ensures luck.lock.Fine? && luck.check.Fine? && luck.commit.Fine? && e.id !in seen.db.orders && NoStock(tx, e.voucher)
            ==> e.id in tx.db.orders
  {
    hide Reachable, Later, Enabled, Apply, HasRowFor;
    ghost var s0 := w.s;
    LaterReflexive(s0);
    w.Pause(t);
    StaysTrue(s0, w.s, pos, e, RETRY);
    seen, tx := w.s, w.s;
    LaterReflexive(w.s);
    if !luck.lock.Fine? {
      fate := GiveUp(w, t, luck.lock, pos, jobs);
      return;
    }
    if !luck.check.Fine? {
      fate := GiveUp(w, t, Thrown(luck.check, luck.unlock), pos, jobs);
      return;
    }
    CheckExistingStep(w.s, t);
    RowIsTheEntrys(w.s, pos, e);
    var found := HasRowFor(w.s.db, w.s.redis.stream[pos]);
    w.Do(CheckExisting(t));
    ghost var s1 := w.s;
    w.Pause(t);
    StaysTrue(s1, w.s, pos, e, SUCCESS);
    tx := w.s;
    LaterReflexive(w.s);
    if !found {
      if !luck.commit.Fine? {
        fate := GiveUp(w, t, Thrown(luck.commit, luck.unlock), pos, jobs);
        return;
      }
      CommitStep(w.s, t);
      CommitEffect(w.s, t, e);
      var result := InsertResult(w.s.db, w.s.redis.stream[pos]);
      if result.OutOfStock? && !luck.unlock.Fine? {
        fate := GiveUp(w, t, luck.unlock, pos, jobs);
        return;
      }
      w.Do(Commit(t));
      if result.OutOfStock? {
        fate := Transient;
        return;
      }
      ghost var s2 := w.s;
      w.Pause(t);
      StaysTrue(s2, w.s, pos, e, SUCCESS);
    }
    if !luck.unlock.Fine? {
      fate := GiveUp(w, t, luck.unlock, pos, jobs);
      return;
    }
    UnlockStep(w.s, t);
    w.Do(Unlock(t));
    fate := Fine;
  }

  lemma CommitEffect(s: State, t: int, e: Entry)
    requires Reachable(s) && t in s.threads && s.threads[t].Checked? && EntryIs(s, s.threads[t].pos, e)
    ensures Enabled(s, Commit(t))
    ensures e.id in Apply(s, Commit(t)).db.orders
    ensures InsertResult(s.db, e).OutOfStock? <==> NoStock(s, e.voucher)
    ensures NoStock(s, e.voucher) ==> e.id in s.db.orders
  {
    hide Reachable, Later, Enabled, Apply, HasRowFor;
    CommitStep(s, t);
    RowIsTheEntrys(s, s.threads[t].pos, e);
    OutOfStockOnlyAfterInsert(s, t);
  }

  // The record stays pending, or is to be isolated.
  method GiveUp(w: World, t: int, how: Fate, pos: nat, ghost jobs: seq<Job>) returns (fate: Fate)
    requires Reachable(w.s) && InHandler(w.s, t) && w.s.threads[t].pos == pos && w.s.threads[t].jobs == jobs
    requires !how.Fine?
    modifies w
    ensures Reachable(w.s) && Later(old(w.s), w.s) && (forall b :: Later(b, old(w.s)) ==> Later(b, w.s))
    ensures w.acks == old(w.acks)
    ensures w.s.redis == old(w.s).redis && w.s.db == old(w.s).db && fate == how
    ensures if how.Transient? then JobsLeft(w.s, t, jobs) else At(w.s, t, Doomed(pos, Fault, jobs))
  {
    hide Reachable, Later, Enabled, Apply;
    if how.Transient? {
      RetryStep(w.s, t);
      w.Do(Retry(t));
    } else {
      FailStep(w.s, t);
      w.Do(Fail(t));
    }
    fate := how;
  }

  // How applyWithLock ends: see its contract.
  ghost function EndOf(luck: Luck, e: Entry, seen: State, tx: State): Fate {
    if !luck.lock.Fine? then luck.lock
    else if !luck.unlock.Fine? then luck.unlock
    else if !luck.check.Fine? then luck.check
    else if e.id in seen.db.orders then Fine
    else if !luck.commit.Fine? then luck.commit
    else if NoStock(tx, e.voucher) then Transient
    else Fine
  }

  // Nothing throws around the transaction.
  ghost predicate NothingFails(luck: Luck) {
    luck.lock.Fine? && luck.check.Fine? && luck.commit.Fine? && luck.unlock.Fine?
  }

  // The voucher of an entry exists.
  lemma VoucherIsKnown(s: State, pos: nat, e: Entry)
    requires Reachable(s) && EntryIs(s, pos, e)
    ensures e.voucher in s.db.stock
  {
    hide Inv;
    ReachableInv(s);
    EntryAccepted(s, e);
  }

  method Handle(w: World, t: int, pos: nat, deliveryCount: nat, luck: Luck, ghost e: Entry, ghost jobs: seq<Job>)
    returns (outcome: Outcome, ghost seen: State, ghost tx: State)
    requires Reachable(w.s) && EntryIs(w.s, pos, e)
    requires At(w.s, t, if deliveryCount >= MAX_DELIVERIES then Doomed(pos, MaxDeliveries, jobs)
                        else Handling(pos, deliveryCount, jobs))
    modifies w
    ensures Reachable(w.s) && Later(old(w.s), w.s) && (forall b :: Later(b, old(w.s)) ==> Later(b, w.s))
    ensures w.acks == old(w.acks) && EntryIs(w.s, pos, e) && DurableIn(w.s, e, outcome)
    ensures match outcome
            case RETRY => JobsLeft(w.s, t, jobs)
            case THROWN => Idle(w.s, t)
            case _ => At(w.s, t, Settling(pos, Acking, jobs))
    ensures deliveryCount >= 5 ==> outcome == if luck.isolate then POISON else THROWN
    ensures outcome.THROWN? ==> !luck.voucher || !luck.isolate
    // below the limit only an exception that is not transient dooms the record, and every transient one is retried
    ensures Later(old(w.s), seen) && Later(seen, tx) && Later(tx, w.s) && Reachable(seen) && EntryIs(seen, pos, e)
    ensures deliveryCount < 5 && !luck.voucher ==> outcome == THROWN
    ensures deliveryCount < 5 && luck.voucher && e.voucher in seen.db.stock ==>
              outcome == match EndOf(luck, e, seen, tx)
                         case Fine => SUCCESS
                         case Transient => RETRY
                         case Fatal => if luck.isolate then POISON else THROWN
    ensures deliveryCount < 5 && e.voucher in seen.db.stock && outcome.POISON? ==>
              luck.lock.Fatal? || luck.check.Fatal? || luck.commit.Fatal? || luck.unlock.Fatal?
    ensures outcome.RETRY? && NothingFails(luck) ==> e.id in w.s.db.orders
  {
    hide Reachable, Later, Enabled, Apply;
    ghost var s0 := w.s;
    LaterReflexive(s0);
    seen, tx := s0, s0;
    if deliveryCount >= MAX_DELIVERIES {
      outcome := IsolateRecord(w, t, pos, luck, e, MaxDeliveries, jobs);
      return;
    }
    w.Pause(t);
    StaysTrue(s0, w.s, pos, e, RETRY);
    if !luck.voucher {
      ThrowStep(w.s, t);
      w.Do(Crash(t));
      outcome := THROWN;
      return;
    }
    seen, tx := w.s, w.s;
    LaterReflexive(w.s);
    LookupVoucherStep(w.s, t);
    var known := w.s.redis.stream[pos].voucher in w.s.db.stock;
    w.Do(LookupVoucher(t));
    if !known {
      outcome := IsolateRecord(w, t, pos, luck, e, VoucherMissing, jobs);
      return;
    }
    ghost var s1 := w.s;
    var fate;
    fate, seen, tx := ApplyWithLock(w, t, pos, luck, e, jobs);
    LaterTransitive(s0, s1, seen);
    match fate
    case Fine =>
      ghost var s2 := w.s;
      ghost var removed := ClearProcessingHints(w, t, pos, luck, e, jobs);
      StaysTrue(s2, w.s, pos, e, SUCCESS);
      outcome := SUCCESS;
    case Transient =>
      StaysTrue(tx, w.s, pos, e, SUCCESS);
      outcome := RETRY;
    case Fatal =>
      outcome := IsolateRecord(w, t, pos, luck, e, Fault, jobs);
  }

  method TakeRecord(w: World, t: int, job: Job, deliveryCount: nat, luck: Luck, ghost e: Entry, ghost jobs: seq<Job>)
    requires Reachable(w.s) && EntryIs(w.s, job.pos, e) && At(w.s, t, Working([job] + jobs))
    requires deliveryCount == if job.known.Some? then job.known.value else LookupCount(w.s, t, job.pos, luck.lookup)
    modifies w
    ensures Reachable(w.s) && Later(old(w.s), w.s) && (forall b :: Later(b, old(w.s)) ==> Later(b, w.s))
    ensures w.acks == old(w.acks) && EntryIs(w.s, job.pos, e)
    ensures At(w.s, t, if deliveryCount >= MAX_DELIVERIES then Doomed(job.pos, MaxDeliveries, jobs)
                       else Handling(job.pos, deliveryCount, jobs))
  {
    hide Reachable, Later, Enabled, Apply;
    TakeJobStep(w.s, t, luck.lookup);
    assert ([job] + jobs)[1..] == jobs;
    w.Do(TakeJob(t, luck.lookup));
  }

  // processRecord: an ACK exactly after SUCCESS or POISON.
  method ProcessRecord(w: World, t: int, job: Job, deliveryCount: nat, luck: Luck, ghost e: Entry, ghost jobs: seq<Job>)
    returns (outcome: Outcome, ghost seen: State, ghost tx: State)
    requires Reachable(w.s) && EntryIs(w.s, job.pos, e) && At(w.s, t, Working([job] + jobs))
    requires deliveryCount == if job.known.Some? then job.known.value else LookupCount(w.s, t, job.pos, luck.lookup)
    modifies w
    ensures Reachable(w.s) && Later(old(w.s), w.s) && (forall b :: Later(b, old(w.s)) ==> Later(b, w.s))
    ensures DurableIn(w.s, e, outcome)
    ensures if outcome.THROWN? then Idle(w.s, t) else JobsLeft(w.s, t, jobs)
    // this call acknowledges the record exactly after SUCCESS or POISON, and nothing else
    ensures w.acks == old(w.acks) + if outcome.SUCCESS? || outcome.POISON? then [job.pos] else []
    ensures outcome.SUCCESS? || outcome.POISON? ==> job.pos !in w.s.redis.pel
    ensures outcome.THROWN? ==> !luck.voucher || !luck.isolate || !luck.ack
    // every transient failure of a step that was reached is retried, and below the limit nothing else than an exception
    // that is not transient dooms the record
    ensures Later(old(w.s), seen) && Later(seen, tx) && Later(tx, w.s)
    ensures deliveryCount < 5 && outcome.POISON? ==>
              luck.lock.Fatal? || luck.check.Fatal? || luck.commit.Fatal? || luck.unlock.Fatal?
    ensures deliveryCount < 5 && luck.voucher ==>
              (outcome.RETRY? <==> EndOf(luck, e, seen, tx).Transient?)
              && (EndOf(luck, e, seen, tx).Fine? && luck.ack ==> outcome.SUCCESS?)
    ensures outcome.RETRY? && NothingFails(luck) ==> e.id in w.s.db.orders
    // an exception of the XACK itself comes after the record is durable
    ensures outcome.THROWN? && luck.voucher && luck.isolate ==> Settled(w.s.db.orders, w.s.db.dead, e.id)
  {
    hide Reachable, Later, Enabled, Apply, EndOf, NothingFails, At, EntryIs, JobsLeft, DoTakeJob, LookupCount, AtAck;
    ghost var s0 := w.s;
    LaterReflexive(s0);
    TakeRecord(w, t, job, deliveryCount, luck, e, jobs);
    ghost var s1 := w.s;
    outcome, seen, tx := Handle(w, t, job.pos, deliveryCount, luck, e, jobs);
    LaterTransitive(s0, s1, seen);
    VoucherIsKnown(seen, job.pos, e);
    if outcome.SUCCESS? || outcome.POISON? {
      outcome := AckRecord(w, t, job.pos, luck, e, outcome, jobs);
    }
  }

  // The XACK of a record that is durable; when it throws, the exception leaves processRecord.
  method AckRecord(w: World, t: int, pos: nat, luck: Luck, ghost e: Entry, was: Outcome, ghost jobs: seq<Job>)
    returns (outcome: Outcome)
    requires Reachable(w.s) && At(w.s, t, Settling(pos, Acking, jobs)) && DurableIn(w.s, e, was)
    requires was.SUCCESS? || was.POISON?
    modifies w
    ensures Reachable(w.s) && Later(old(w.s), w.s) && (forall b :: Later(b, old(w.s)) ==> Later(b, w.s))
    ensures outcome == (if luck.ack then was else THROWN) && DurableIn(w.s, e, was)
    ensures if luck.ack then JobsLeft(w.s, t, jobs) else Idle(w.s, t)
    ensures w.acks == old(w.acks) + if luck.ack then [pos] else []
    ensures luck.ack ==> pos !in w.s.redis.pel
  {
    hide Reachable, Later, Enabled, Apply;
    ghost var s0 := w.s;
    w.Pause(t);
    StaysTrue(s0, w.s, pos, e, was);
    if !luck.ack {
      ThrowStep(w.s, t);
      w.Do(Crash(t));
      return THROWN;
    }
    AckStep(w.s, t);
    w.Do(Ack(t));
    outcome := was;
  }

  // lookupDeliveryCount: never more than the entry was delivered, exact for an entry of this consumer when the command
  // works, and otherwise the 1 of a first delivery; so a failing lookup never isolates a record.
  method LookupDeliveryCount(w: World, t: int, pos: nat, works: bool) returns (n: nat)
    requires Reachable(w.s)
    ensures pos in w.s.redis.pel ==> 1 <= n <= w.s.redis.pel[pos].deliveries
    ensures pos < |w.s.hist.claims| ==> n <= 1 + w.s.hist.claims[pos]
    ensures works && pos in w.s.redis.pel && w.s.redis.pel[pos].owner == t ==> n == w.s.redis.pel[pos].deliveries
    ensures n != 1 ==> works && pos in w.s.redis.pel && w.s.redis.pel[pos].owner == t
  {
    DeliveredOnce(w.s, pos);
    hide Reachable;
    if works {
      if pos in w.s.redis.pel && w.s.redis.pel[pos].owner == t {
        return w.s.redis.pel[pos].deliveries;
      }
    }
    n := 1;
  }

  lemma DeliveredOnce(s: State, pos: nat)
    requires Reachable(s)
    ensures pos in s.redis.pel ==> pos < |s.hist.claims| && s.redis.pel[pos].deliveries == 1 + s.hist.claims[pos]
  {
    hide Inv;
    ReachableInv(s);
    Accountable(s);
  }

  // Nothing fails that decides whether the record gets into MySQL.
  ghost predicate LuckIsFine(luck: Luck) {
    luck.voucher && NothingFails(luck) && luck.isolate
  }

  // Something throws that ends the whole batch.
  ghost predicate MayThrow(luck: Luck) { !luck.voucher || !luck.isolate || !luck.ack }

  // The records seen so far, unless something failed around them, are in MySQL.
  ghost predicate SeenSettled(s: State, ids: seq<nat>, lucks: seq<Luck>, i: nat) {
    && i <= |ids| == |lucks|
    && forall k :: 0 <= k < i && LuckIsFine(lucks[k]) ==> SettledAt(s, ids[k])
  }

  lemma NothingSeen(s: State, ids: seq<nat>, lucks: seq<Luck>)
    requires |ids| == |lucks|
    ensures SeenSettled(s, ids, lucks, 0)
  {
  }

  lemma NothingClaimed(pel: map<nat, Pending>, now: int)
    ensures Claimed(pel, [], now) == []
  {
  }

  lemma SeenLater(a: State, b: State, ids: seq<nat>, lucks: seq<Luck>, i: nat)
    requires Later(a, b) && SeenSettled(a, ids, lucks, i)
    ensures SeenSettled(b, ids, lucks, i)
  {
    forall k | 0 <= k < i && LuckIsFine(lucks[k]) ensures SettledAt(b, ids[k]) {
      SettledStable(a, b, a.redis.stream[ids[k]].id);
    }
  }

  lemma EntryOfJob(s: State, t: int, job: Job, jobs: seq<Job>) returns (e: Entry)
    requires Reachable(s) && At(s, t, Working([job] + jobs))
    ensures EntryIs(s, job.pos, e)
  {
    ReachableInv(s);
    assert PcOk(s, s.threads[t]);
    assert ([job] + jobs)[0] == job;
    e := s.redis.stream[job.pos];
  }

  // The records of one scan, one by one; each is handled at most once. An exception ends the scan behind the record it
  // came from, and seen says how many records were begun.
  method ProcessAll(w: World, t: int, jobs: seq<Job>, ghost ids: seq<nat>, lucks: seq<Luck>) returns (seen: nat)
    requires Reachable(w.s) && JobsLeft(w.s, t, jobs) && |jobs| == |ids| == |lucks|
    requires forall k :: 0 <= k < |jobs| ==> jobs[k].pos == ids[k]
    modifies w
    ensures Reachable(w.s) && Later(old(w.s), w.s) && (forall b :: Later(b, old(w.s)) ==> Later(b, w.s)) && Idle(w.s, t)
    ensures SeenSettled(w.s, ids, lucks, seen) && AllUnlessThrown(ids, lucks, seen)
  {
    hide Reachable, Later, Enabled, Apply, SeenSettled;
    LaterReflexive(w.s);
    NothingSeen(w.s, ids, lucks);
    assert jobs[0..] == jobs;
    seen := 0;
    while seen < |jobs|
      invariant seen <= |jobs| && Reachable(w.s) && Later(old(w.s), w.s)
      invariant (forall b :: Later(b, old(w.s)) ==> Later(b, w.s))
      invariant JobsLeft(w.s, t, jobs[seen..]) && SeenSettled(w.s, ids, lucks, seen)
    {
      ghost var s0 := w.s;
      w.Pause(t);
      ghost var s1 := w.s;
      var job, luck := jobs[seen], lucks[seen];
      assert jobs[seen..] == [job] + jobs[seen + 1..];
      ghost var e := EntryOfJob(w.s, t, job, jobs[seen + 1..]);
      var count;
      if job.known.Some? {
        count := job.known.value;
      } else {
        count := LookupDeliveryCount(w, t, job.pos, luck.lookup);
      }
      var outcome;
      ghost var read, tx;
      outcome, read, tx := ProcessRecord(w, t, job, count, luck, e, jobs[seen + 1..]);
      SeenOne(s0, s1, w.s, ids, lucks, seen, e, outcome);
      seen := seen + 1;
      if outcome.THROWN? {
        return;
      }
    }
  }

  // A scan that ends early ends behind a record that threw.
  ghost predicate AllUnlessThrown(ids: seq<nat>, lucks: seq<Luck>, seen: nat) {
    |ids| == |lucks| && seen <= |ids| && (seen < |ids| ==> seen > 0 && MayThrow(lucks[seen - 1]))
  }

  lemma SeenOne(a: State, b: State, c: State, ids: seq<nat>, lucks: seq<Luck>, i: nat, e: Entry, outcome: Outcome)
    requires Later(a, b) && Later(b, c) && SeenSettled(a, ids, lucks, i) && i < |ids|
    requires EntryIs(b, ids[i], e) && DurableIn(c, e, outcome)
    requires outcome.RETRY? && LuckIsFine(lucks[i]) ==> e.id in c.db.orders
    requires outcome.THROWN? && LuckIsFine(lucks[i]) ==> Settled(c.db.orders, c.db.dead, e.id)
    ensures SeenSettled(c, ids, lucks, i + 1)
  {
    hide Later;
    SeenLater(a, b, ids, lucks, i);
    SeenLater(b, c, ids, lucks, i);
    StaysTrue(b, c, ids[i], e, RETRY);
  }

  // ---- recoverOwnPending, claimIdleFromOthers, one read of the loop ----

  lemma ScanOwnStep(s: State, t: int)
    requires Idle(s, t)
    ensures Enabled(s, ScanOwn(t)) && Apply(s, ScanOwn(t)) == DoScanOwn(s, t)
  {
  }

  method RecoverOwnPending(w: World, t: int, lucks: seq<Luck>) returns (ids: seq<nat>, seen: nat)
    requires Reachable(w.s) && Idle(w.s, t) && |lucks| == OWN_PENDING_SCAN_LIMIT
    modifies w
    ensures Reachable(w.s) && Later(old(w.s), w.s) && Idle(w.s, t)
    ensures ids == XPending(old(w.s).redis.pel, Some(t), 0, old(w.s).redis.delivered, 50)
    ensures |ids| <= |lucks| && SeenSettled(w.s, ids, lucks[..|ids|], seen)
    ensures AllUnlessThrown(ids, lucks[..|ids|], seen)
  {
    hide Reachable, Later, Enabled, Apply, SeenSettled;
    ids := XPending(w.s.redis.pel, Some(t), 0, w.s.redis.delivered, OWN_PENDING_SCAN_LIMIT);
    XPendingSize(w.s.redis.pel, Some(t), 0, w.s.redis.delivered, OWN_PENDING_SCAN_LIMIT);
    var jobs := Reported(w.s.redis.pel, ids);
    ScanOwnStep(w.s, t);
    w.Do(ScanOwn(t));
    seen := ProcessAll(w, t, jobs, ids, lucks[..|ids|]);
  }

  lemma {:induction false} XPendingSize(pel: map<nat, Pending>, owner: Option<int>, from: nat, end: nat, limit: nat)
    requires from <= end
    ensures |XPending(pel, owner, from, end, limit)| <= limit
    decreases end - from
  {
    if from < end && limit > 0 {
      XPendingSize(pel, owner, from + 1, end, if Listed(pel, owner, from) then limit - 1 else limit);
    }
  }

  // The loop that builds toClaim.
  method SelectToClaim(pel: map<nat, Pending>, pending: seq<nat>, consumer: int, now: int) returns (toClaim: seq<nat>)
    requires forall k :: 0 <= k < |pending| ==> pending[k] in pel
    ensures toClaim == SelectIdle(pel, pending, consumer, now, 10) && |toClaim| <= 10
  {
    toClaim := [];
    assert pending[0..] == pending;
    var i := 0;
    while i < |pending| && |toClaim| < CLAIM_BATCH
      invariant i <= |pending| && |toClaim| <= CLAIM_BATCH
      invariant toClaim + SelectIdle(pel, pending[i..], consumer, now, CLAIM_BATCH - |toClaim|)
                == SelectIdle(pel, pending, consumer, now, CLAIM_BATCH)
    {
      var pm := pending[i];
      assert pending[i..][1..] == pending[i + 1..];
      i := i + 1;
      if pel[pm].owner == consumer {
        continue;
      }
      if now - pel[pm].lastDelivery < CLAIM_MIN_IDLE_MS {
        continue;
      }
      toClaim := toClaim + [pm];
    }
  }

  lemma ScanIdleStep(s: State, t: int)
    requires Idle(s, t)
    ensures Enabled(s, ScanIdle(t)) && Apply(s, ScanIdle(t)) == DoScanIdle(s, t)
  {
  }

  lemma ClaimIdleStep(s: State, t: int)
    requires t in s.threads && s.threads[t].Claiming?
    ensures Enabled(s, ClaimIdle(t)) && Apply(s, ClaimIdle(t)) == DoClaimIdle(s, t)
  {
  }

  // claimIdleFromOthers: at is the moment of the XCLAIM.
  method ClaimIdleFromOthers(w: World, t: int, lucks: seq<Luck>) returns (claimed: seq<nat>, seen: nat, ghost at: State)
    requires Reachable(w.s) && Idle(w.s, t) && |lucks| == CLAIM_BATCH
    modifies w
    ensures Reachable(w.s) && Later(old(w.s), w.s) && Idle(w.s, t)
    ensures |claimed| <= |lucks| && SeenSettled(w.s, claimed, lucks[..|claimed|], seen)
    ensures AllUnlessThrown(claimed, lucks[..|claimed|], seen)
    ensures Later(old(w.s), at) && claimed == Claimed(at.redis.pel, IdleIds(old(w.s), t), at.now)
    ensures forall k :: 0 <= k < |claimed| ==> claimed[k] in IdleIds(old(w.s), t)
  {
    hide Reachable, Later, Enabled, Apply, SeenSettled, XPending, SelectIdle, Claimed;
    LaterReflexive(w.s);
    claimed, seen, at := [], 0, w.s;
    var pending := XPending(w.s.redis.pel, None, 0, w.s.redis.delivered, CLAIM_SCAN_WINDOW);
    var toClaim := SelectToClaim(w.s.redis.pel, pending, t, w.s.now);
    ScanIdleStep(w.s, t);
    w.Do(ScanIdle(t));
    if toClaim == [] {
      NothingSeen(w.s, [], lucks[..0]);
      NothingClaimed(at.redis.pel, at.now);
      return;
    }
    w.Pause(t);
    at := w.s;
    claimed := Claimed(w.s.redis.pel, toClaim, w.s.now);
    ClaimedSize(w.s.redis.pel, toClaim, w.s.now);
    ClaimIdleStep(w.s, t);
    w.Do(ClaimIdle(t));
    seen := ProcessAll(w, t, Unknown(claimed), claimed, lucks[..|claimed|]);
  }

  lemma {:induction false} ClaimedSize(pel: map<nat, Pending>, ids: seq<nat>, now: int)
    ensures |Claimed(pel, ids, now)| <= |ids|
  {
    if ids != [] {
      ClaimedSize(pel, ids[1..], now);
    }
  }

  lemma ReadStreamStep(s: State, t: int)
    requires Idle(s, t) && s.redis.delivered < |s.redis.stream|
    ensures Enabled(s, ReadStream(t)) && Apply(s, ReadStream(t)) == DoReadStream(s, t)
  {
  }

  // One turn of the loop after its scans: the next new record, if there is one.
  method ReadOne(w: World, t: int, luck: Luck) returns (read: Option<nat>)
    requires Reachable(w.s) && Idle(w.s, t)
    modifies w
    ensures Reachable(w.s) && Later(old(w.s), w.s) && Idle(w.s, t)
    ensures read == if old(w.s).redis.delivered < |old(w.s).redis.stream| then Some(old(w.s).redis.delivered) else None
    ensures read.Some? && LuckIsFine(luck) ==> SettledAt(w.s, read.value)
  {
    hide Reachable, Later, Enabled, Apply, SettledAt;
    LaterReflexive(w.s);
    if w.s.redis.delivered >= |w.s.redis.stream| {
      return None;
    }
    var pos := w.s.redis.delivered;
    ReadStreamStep(w.s, t);
    w.Do(ReadStream(t));
    var seen := ProcessAll(w, t, [Job(pos, None)], [pos], [luck]);
    assert [luck][0] == luck && [pos][0] == pos;
    read := Some(pos);
  }
}
