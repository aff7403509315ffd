/** The bridge between the two models of `process`: a task whose steps nobody interrupts does exactly what the
    chain of handlers does in one call. */
module Solo {
  import opened Wrappers
  import opened Models
  import opened Database
  import opened Idempotency
  import opened Retry
  import opened DeadLetters
  import opened Handlers
  import opened Tasks

  predicate StepOf(a: Action, n: nat) {
    !a.Spawn? && !a.Leave? && !a.Expire? && !a.Crash? && a.n == n
  }

  /** All steps of the run belong to task `n`. */
  predicate OnlyBy(run: seq<Action>, n: nat) {
    forall i :: 0 <= i < |run| ==> StepOf(run[i], n)
  }

  /** A run of task `n` alone from `w`, and where it leads. */
  ghost predicate Leads(w: World, run: seq<Action>, n: nat, pc: Pc, s: Store) {
    && Valid(w, run) && OnlyBy(run, n)
    && var u := Exec(w, run);
       InFlight(u, n) && u.tasks[n] == pc && u.store == s && u.msgs == w.msgs && u.maxAttempts == w.maxAttempts
  }

  /** One more step of the task. */
  lemma Then(w: World, run: seq<Action>, n: nat, a: Action) returns (longer: seq<Action>)
    requires Valid(w, run) && OnlyBy(run, n) && Enabled(Exec(w, run), a)
    requires StepOf(a, n)
    ensures Valid(w, longer) && OnlyBy(longer, n) && Exec(w, longer) == Step(Exec(w, run), a)
  {
    Extend(w, run, a);
    longer := run + [a];
  }

  /** Where the `k`-th attempt leads. */
  function PcAfter(replies: Replies, k: nat, max: int): Pc {
    if k == 0 then AtInsert(0)
    else
      var r := replies(k);
      if r.Returned? then AtDevice
      else if !Settles(r) && k < max then AtInsert(k)
      else AtRelease(r.error, k)
  }

  function Attempted(s: Store, e: IoTEvent, replies: Replies, k: nat): Store {
    s.(tables := AfterAttempts(s.tables, e, replies, k))
  }

  lemma NotLast(replies: Replies, k: nat, max: int)
    requires k < Calls(replies, max)
    ensures PcAfter(replies, k, max) == AtInsert(k)
  {
    assert k > 0 ==> !Settles(replies(k));
  }

  /** Where the retry loop ends. */
  lemma RetryEnds(replies: Replies, max: int)
    requires max >= 1
    ensures PcAfter(replies, Calls(replies, max), max)
            == match Raises(replies, max)
               case None => AtDevice
               case Some(x) => AtRelease(x, Calls(replies, max))
  {
  }

  lemma AttemptedStep(s: Store, e: IoTEvent, replies: Replies, k: nat)
    requires k >= 1
    ensures var t := Attempted(s, e, replies, k - 1);
            t.(tables := InsertEffect(t.tables, e, replies(k))) == Attempted(s, e, replies, k)
  {
  }

  /** Attempt number `k` of the loop. */
  lemma AttemptAlone(w: World, run: seq<Action>, n: nat, e: IoTEvent, replies: Replies, k: nat, s: Store)
    returns (longer: seq<Action>)
    requires n < |w.msgs| && Validate(w.msgs[n].raw) == Some(e) && 1 <= k <= Calls(replies, w.maxAttempts)
    requires Leads(w, run, n, PcAfter(replies, k - 1, w.maxAttempts), Attempted(s, e, replies, k - 1))
    ensures Leads(w, longer, n, PcAfter(replies, k, w.maxAttempts), Attempted(s, e, replies, k))
  {
    NotLast(replies, k - 1, w.maxAttempts);
    longer := Then(w, run, n, Insert(n, replies(k)));
    AttemptedStep(s, e, replies, k);
  }

  /** The first `k` attempts of the retry loop, one step each. */
  lemma {:induction false} AttemptsAlone(w: World, run: seq<Action>, n: nat, e: IoTEvent, replies: Replies, k: nat,
                                         s: Store)
    returns (longer: seq<Action>)
    requires n < |w.msgs| && Validate(w.msgs[n].raw) == Some(e)
    requires k <= Calls(replies, w.maxAttempts)
    requires Leads(w, run, n, PcAfter(replies, 0, w.maxAttempts), Attempted(s, e, replies, 0))
    ensures Leads(w, longer, n, PcAfter(replies, k, w.maxAttempts), Attempted(s, e, replies, k))
  {
    if k == 0 {
      longer := run;
    } else {
      var shorter := AttemptsAlone(w, run, n, e, replies, k - 1, s);
      longer := AttemptAlone(w, shorter, n, e, replies, k, s);
    }
  }

  /** Publishing, and recording unless publishing broke. */
  lemma SendAlone(w: World, run: seq<Action>, n: nat, reason: Reason, retries: nat, s: Store, script: Script)
    returns (longer: seq<Action>)
    requires n < |w.msgs| && Leads(w, run, n, AtPublish(reason, retries), s)
    ensures var o := Send(s, Fields(None, false), w.msgs[n], reason, retries, script);
            Leads(w, longer, n,
                  if o.raised.None? then Over
                  else if reason.ValidationError? then Thrown
                  else AtPublish(ValidationError, 0),
                  o.store)
  {
    longer := Then(w, run, n, Publish(n, script.publish(reason)));
    if !Published(w.msgs[n].raw, script.publish(reason)).Broken? {
      longer := Then(w, longer, n, Record(n, script.record(reason)));
    }
  }

  /** The two statements of the device upsert. */
  lemma UpsertAlone(w: World, run: seq<Action>, n: nat, e: IoTEvent, s: Store, script: Script)
    returns (longer: seq<Action>)
    requires n < |w.msgs| && Validate(w.msgs[n].raw) == Some(e) && Leads(w, run, n, AtDevice, s)
    ensures Leads(w, longer, n, Over, DeviceStateEffect(s, e, script.upsert))
  {
    longer := Then(w, run, n, EnsureDevice(n, !script.upsert.NoDevice?));
    if !script.upsert.NoDevice? {
      longer := Then(w, longer, n, Upsert(n, script.upsert.Upserted?));
    }
  }

  lemma ClaimAlone(w: World, n: nat, script: Script) returns (run: seq<Action>)
    requires InFlight(w, n) && w.tasks[n].AtClaim?
    ensures var key := ClaimKey(w.msgs[n].raw);
            Leads(w, run, n,
                  if key.Some? && !ClaimVerdict(w.store.keys, key.value, script.claim) then Over else AtSchema,
                  AfterClaim(w.msgs[n], w.store, script))
  {
    run := Then(w, [], n, Action.Claim(n, script.claim));
  }

  /** The write, its retries, and what follows a failure. */
  lemma WriteAlone(w: World, run: seq<Action>, n: nat, e: IoTEvent, s: Store, script: Script)
    returns (longer: seq<Action>)
    requires n < |w.msgs| && Validate(w.msgs[n].raw) == Some(e) && Leads(w, run, n, AtSchema, s)
    ensures var c := Calls(script.inserts, w.maxAttempts);
            var t := Attempted(s, e, script.inserts, c);
            match Raises(script.inserts, w.maxAttempts)
            case None => Leads(w, longer, n, AtDevice, t)
            case Some(x) =>
              Leads(w, longer, n, AtPublish(ReasonOf(x), c), ReleaseEffect(t, Key(e.eventId), script.release))
  {
    longer := Then(w, run, n, Check(n));
    if w.maxAttempts >= 1 {
      longer := AttemptsAlone(w, longer, n, e, script.inserts, Calls(script.inserts, w.maxAttempts), s);
      RetryEnds(script.inserts, w.maxAttempts);
    }
    if Raises(script.inserts, w.maxAttempts).Some? {
      longer := Then(w, longer, n, Release(n, script.release));
    }
  }

  /** An uninterrupted task is a call of `process`: same state, and the exception escapes in one exactly when
      it does in the other. */
  lemma UninterruptedIsProcess(w: World, n: nat, script: Script, p: Policy) returns (run: seq<Action>)
    requires InFlight(w, n) && w.tasks[n].AtClaim? && w.maxAttempts == p.maxAttempts
    ensures var o := Processed(w.msgs[n], w.store, script, p);
            Leads(w, run, n, if o.raised.None? then Over else Thrown, o.store)
  {
    var m, d := w.msgs[n], Decide(w.msgs[n].raw, w.store.keys, script, p);
    var s := AfterClaim(m, w.store, script);
    ChainByDecision(m, w.store, script, p);
    run := ClaimAlone(w, n, script);
    match d
    case Duplicate =>
    case Invalid =>
      run := Then(w, run, n, Check(n));
      run := SendAlone(w, run, n, ValidationError, 0, s, script);
    case WriteFailed(error, attempts) =>
      var e := Validate(m.raw).value;
      run := WriteAlone(w, run, n, e, s, script);
      var t := ReleaseEffect(Attempted(s, e, script.inserts, attempts), Key(e.eventId), script.release);
      run := SendAlone(w, run, n, ReasonOf(error), attempts, t, script);
      var o := Send(t, Fields(None, false), m, ReasonOf(error), attempts, script);
      if o.raised.Some? {
        run := SendAlone(w, run, n, ValidationError, 0, o.store, script);
      }
    case Stored =>
      var e := Validate(m.raw).value;
      run := WriteAlone(w, run, n, e, s, script);
      run := UpsertAlone(w, run, n, e, Attempted(s, e, script.inserts, Calls(script.inserts, p.maxAttempts)), script);
  }
}
