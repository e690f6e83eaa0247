/** The Tauri commands with logic of their own (src-tauri/src/lib.rs):
    `sync_emails`, `send_email` and `add_account`. The other commands pass
    straight through to the store (module Storage).

    The mail server, the disk and the AI provider are oracles: each account's
    turn of the sync loop is given as a `Round` (what fetching returned, and
    what saving the merged list would return), and the provider as a function
    from request to reply. */
module Commands {
  import opened Wrappers
  import opened Types
  import opened Text
  import opened Classifier
  import opened Collections
  import opened Storage

  /** What the sync loop reports besides its result: a notification line for
      an email, or the log line for an account whose fetch failed. */
  datatype Event = Notified(subject: string, sender: string) | FetchFailed(accountId: string, reason: string)

  // ---------------------------------------------------------------------------
  // Classifying one fetched batch

  /** Every body of the batch can be previewed (see `Classifier.Preview`). */
  predicate Previewable(batch: seq<Email>)
  {
    forall i :: 0 <= i < |batch| ==> PreviewDefined(batch[i].body)
  }

  datatype Classified = Classified(email: Email, events: seq<Event>)

  /** The body of the inner loop of `sync_emails` for one email: attach the
      classification when it succeeds; then, unless the email is Marketing and
      auto-delete is on (`continue`), report a notification when the
      classification asks for one and notifications are on. A failed
      classification leaves the email as it was. */
  function ClassifyOne(cfg: AIConfig, notifications: bool, e: Email, provider: Request -> Reply): (c: Classified)
    requires cfg.enabled ==> PreviewDefined(e.body)
    ensures c.email == e.(aiClassification := c.email.aiClassification)
    ensures |c.events| <= 1
    ensures c.events != [] ==> c.events == [Notified(e.subject, e.from.address)]
  {
    match ClassifyEmail(cfg, e, provider)
    case Err(_) => Classified(e, [])
    case Ok(cl) =>
      var tagged := e.(aiClassification := Some(cl));
      if cfg.autoDelete && cl.category == Marketing then Classified(tagged, [])
      else if cl.shouldNotify && notifications then Classified(tagged, [Notified(e.subject, e.from.address)])
      else Classified(tagged, [])
  }

  /** A notification is reported exactly when the classification succeeds,
      asks for one, and notifications are on; the classification is attached
      exactly when it succeeds. */
  lemma ClassifyOneNotifyIff(cfg: AIConfig, notifications: bool, e: Email, provider: Request -> Reply)
    requires cfg.enabled ==> PreviewDefined(e.body)
    ensures ClassifyOne(cfg, notifications, e, provider).events != [] <==>
              && ClassifyEmail(cfg, e, provider).Ok?
              && ClassifyEmail(cfg, e, provider).value.shouldNotify
              && notifications
    ensures ClassifyEmail(cfg, e, provider).Ok? ==>
              ClassifyOne(cfg, notifications, e, provider).email.aiClassification == Some(ClassifyEmail(cfg, e, provider).value)
    ensures ClassifyEmail(cfg, e, provider).Err? ==> ClassifyOne(cfg, notifications, e, provider).email == e
  {
  }

  datatype Batch = Batch(emails: seq<Email>, events: seq<Event>)

  /** The notifications the sync loop reports for a classified batch, in
      batch order. */
  function NotificationsFor(es: seq<Email>): seq<Event>
  {
    if es == [] then []
    else
      var e := es[0];
      (if e.aiClassification.Some? && e.aiClassification.value.shouldNotify
       then [Notified(e.subject, e.from.address)] else [])
      + NotificationsFor(es[1..])
  }

  lemma PreviewableTail(batch: seq<Email>)
    requires batch != [] && Previewable(batch)
    ensures PreviewDefined(batch[0].body) && Previewable(batch[1..])
  {
    forall i | 0 <= i < |batch[1..]| ensures PreviewDefined(batch[1..][i].body) {
      assert batch[1..][i] == batch[i + 1];
    }
  }

  /** Putting a re-classified head in front of a re-classified tail gives a
      re-classified batch. */
  lemma ReclassifiedCons(x: Email, xs: seq<Email>, batch: seq<Email>)
    requires batch != [] && x == batch[0].(aiClassification := x.aiClassification)
    requires |xs| == |batch| - 1
    requires forall i :: 0 <= i < |xs| ==> xs[i] == batch[1..][i].(aiClassification := xs[i].aiClassification)
    ensures forall i :: 0 <= i < |batch| ==> ([x] + xs)[i] == batch[i].(aiClassification := ([x] + xs)[i].aiClassification)
  {
    forall i | 0 <= i < |batch|
      ensures ([x] + xs)[i] == batch[i].(aiClassification := ([x] + xs)[i].aiClassification)
    {
      if i > 0 {
        assert ([x] + xs)[i] == xs[i - 1];
        assert batch[1..][i - 1] == batch[i];
      }
    }
  }

  /** Putting the head's classification in front of the tail's gives each
      email of the batch its own classification. */
  lemma ClassifiedCons(cfg: AIConfig, notifications: bool, x: Email, xs: seq<Email>, batch: seq<Email>,
                       provider: Request -> Reply)
    requires cfg.enabled && batch != [] && Previewable(batch)
    requires x == ClassifyOne(cfg, notifications, batch[0], provider).email
    requires |xs| == |batch| - 1
    requires forall i :: 0 <= i < |xs| ==> xs[i] == ClassifyOne(cfg, notifications, batch[i + 1], provider).email
    ensures forall i :: 0 <= i < |batch| ==> ([x] + xs)[i] == ClassifyOne(cfg, notifications, batch[i], provider).email
  {
    forall i | 0 <= i < |batch| ensures ([x] + xs)[i] == ClassifyOne(cfg, notifications, batch[i], provider).email {
      if i > 0 { assert ([x] + xs)[i] == xs[i - 1]; }
    }
  }

  lemma NotifiedAppend(a: seq<Event>, b: seq<Event>)
    requires forall i :: 0 <= i < |a| ==> a[i].Notified?
    requires forall i :: 0 <= i < |b| ==> b[i].Notified?
    ensures forall i :: 0 <= i < |a + b| ==> (a + b)[i].Notified?
  {
    forall i | 0 <= i < |a + b| ensures (a + b)[i].Notified? {
      if i >= |a| { assert (a + b)[i] == b[i - |a|]; }
    }
  }

  /** The classification step of `sync_emails` for one account's batch. Every
      fetched email stays in the batch, in order, and only its classification
      can change: each email is as `ClassifyOne` leaves it, so a failed
      classification leaves it as fetched and a Marketing one is still
      tagged. With classification off the batch is untouched. */
  function ClassifyBatch(settings: AppSettings, batch: seq<Email>, provider: Request -> Reply): (r: Batch)
    requires ClassificationOn(settings) ==> Previewable(batch)
    ensures |r.emails| == |batch|
    ensures forall i :: 0 <= i < |batch| ==> r.emails[i] == batch[i].(aiClassification := r.emails[i].aiClassification)
    ensures ClassificationOn(settings) ==>
              forall i :: 0 <= i < |batch| ==>
                r.emails[i] == ClassifyOne(settings.aiConfig.value, settings.notifications, batch[i], provider).email
    ensures !ClassificationOn(settings) ==> r == Batch(batch, [])
    ensures !settings.notifications ==> r.events == []
    ensures forall i :: 0 <= i < |r.events| ==> r.events[i].Notified?
    decreases |batch|
  {
    if !ClassificationOn(settings) || batch == [] then Batch(batch, [])
    else
      PreviewableTail(batch);
      var one := ClassifyOne(settings.aiConfig.value, settings.notifications, batch[0], provider);
      var rest := ClassifyBatch(settings, batch[1..], provider);
      ReclassifiedCons(one.email, rest.emails, batch);
      ClassifiedCons(settings.aiConfig.value, settings.notifications, one.email, rest.emails, batch, provider);
      NotifiedAppend(one.events, rest.events);
      Batch([one.email] + rest.emails, one.events + rest.events)
  }

  /** One step of the classification loop: the first email is classified,
      then the rest, and their notifications follow in that order. */
  lemma ClassifyBatchStep(settings: AppSettings, batch: seq<Email>, provider: Request -> Reply)
    requires ClassificationOn(settings) && batch != [] && Previewable(batch)
    ensures Previewable(batch[1..])
    ensures var one := ClassifyOne(settings.aiConfig.value, settings.notifications, batch[0], provider);
            var rest := ClassifyBatch(settings, batch[1..], provider);
            ClassifyBatch(settings, batch, provider) == Batch([one.email] + rest.emails, one.events + rest.events)
  {
    PreviewableTail(batch);
  }

  /** For freshly fetched (unclassified) emails, the notifications reported
      are exactly those of the classified emails whose classification asks
      for one, in batch order. */
  lemma {:induction false} ClassifyBatchNotifications(settings: AppSettings, batch: seq<Email>, provider: Request -> Reply)
    requires ClassificationOn(settings) ==> Previewable(batch)
    requires settings.notifications
    requires forall i :: 0 <= i < |batch| ==> batch[i].aiClassification.None?
    ensures ClassifyBatch(settings, batch, provider).events == NotificationsFor(ClassifyBatch(settings, batch, provider).emails)
    decreases |batch|
  {
    var r := ClassifyBatch(settings, batch, provider);
    if !ClassificationOn(settings) {
      NoClassificationNoNotifications(batch);
    } else if batch != [] {
      var cfg := settings.aiConfig.value;
      ClassifyOneNotifyIff(cfg, true, batch[0], provider);
      ClassifyBatchNotifications(settings, batch[1..], provider);
      assert r.emails[1..] == ClassifyBatch(settings, batch[1..], provider).emails;
      if ClassifyEmail(cfg, batch[0], provider).Ok? {
        var cl := ClassifyEmail(cfg, batch[0], provider).value;
        assert cl.shouldNotify ==> cl.category != Marketing;
      }
    }
  }

  lemma {:induction false} NoClassificationNoNotifications(es: seq<Email>)
    requires forall i :: 0 <= i < |es| ==> es[i].aiClassification.None?
    ensures NotificationsFor(es) == []
  {
    if es != [] {
      NoClassificationNoNotifications(es[1..]);
    }
  }

  // ---------------------------------------------------------------------------
  // sync_emails

  /** One account's turn as the outside world plays it: what fetching
      returned, and what saving the merged list returns. */
  datatype Round = Round(fetched: Result<seq<Email>>, saved: Result<()>)

  datatype Synced = Synced(emails: seq<Email>, events: seq<Event>, status: Result<()>)

  /** Rounds whose batches the classifier can preview, up to the round whose
      save aborts the loop. */
  predicate SafeUntilAbort(settings: AppSettings, rounds: seq<Round>)
    decreases |rounds|
  {
    rounds == [] ||
    match rounds[0].fetched
    case Err(_) => SafeUntilAbort(settings, rounds[1..])
    case Ok(batch) =>
      && (ClassificationOn(settings) ==> Previewable(batch))
      && (rounds[0].saved.Ok? ==> SafeUntilAbort(settings, rounds[1..]))
  }

  /** The saves that happen all succeed: every round that fetched saved Ok. */
  ghost predicate AllSavesOk(rounds: seq<Round>)
  {
    forall i :: 0 <= i < |rounds| && rounds[i].fetched.Ok? ==> rounds[i].saved.Ok?
  }

  /** The first round that fetched and failed to save, if any. */
  function FirstFailedSave(rounds: seq<Round>): (r: Option<nat>)
    ensures r.None? <==> AllSavesOk(rounds)
    ensures r.Some? ==> r.value < |rounds| && rounds[r.value].fetched.Ok? && rounds[r.value].saved.Err?
    ensures r.Some? ==> AllSavesOk(rounds[..r.value])
    decreases |rounds|
  {
    if rounds == [] then None
    else if rounds[0].fetched.Ok? && rounds[0].saved.Err? then
      assert AllSavesOk(rounds[..0]);
      Some(0)
    else
      var rest := FirstFailedSave(rounds[1..]);
      assert forall i :: 1 <= i < |rounds| ==> rounds[i] == rounds[1..][i - 1];
      match rest
      case None => None
      case Some(i) =>
        Some(i + 1)
  }

  /** How the first failed save of the rounds relates to that of the rounds
      after the first. */
  lemma FirstFailedSaveStep(rounds: seq<Round>)
    requires rounds != []
    ensures rounds[0].fetched.Ok? && rounds[0].saved.Err? ==> FirstFailedSave(rounds) == Some(0)
    ensures !(rounds[0].fetched.Ok? && rounds[0].saved.Err?) ==>
              FirstFailedSave(rounds) == (match FirstFailedSave(rounds[1..]) case None => None case Some(i) => Some(i + 1))
  {
  }

  /** The batches the loop hands to `add_emails`, as fetched: each fetched
      batch, in account order, up to and including the one whose save
      fails. */
  function FetchedBatches(rounds: seq<Round>): seq<seq<Email>>
    decreases |rounds|
  {
    if rounds == [] then []
    else match rounds[0].fetched
      case Err(_) => FetchedBatches(rounds[1..])
      case Ok(batch) => if rounds[0].saved.Err? then [batch] else [batch] + FetchedBatches(rounds[1..])
  }

  /** The same batches as they are merged: each classified first. */
  function ClassifiedBatches(settings: AppSettings, rounds: seq<Round>, provider: Request -> Reply): seq<seq<Email>>
    requires SafeUntilAbort(settings, rounds)
    decreases |rounds|
  {
    if rounds == [] then []
    else match rounds[0].fetched
      case Err(_) => ClassifiedBatches(settings, rounds[1..], provider)
      case Ok(batch) =>
        var here := ClassifyBatch(settings, batch, provider).emails;
        if rounds[0].saved.Err? then [here] else [here] + ClassifiedBatches(settings, rounds[1..], provider)
  }

  /** What the loop reports, in the order it would print it: a failure for
      each account whose fetch fails, and the notifications of each fetched
      batch, up to and including the batch whose save fails. */
  function SyncEvents(settings: AppSettings, accounts: seq<EmailAccount>, rounds: seq<Round>,
                      provider: Request -> Reply): seq<Event>
    requires |rounds| == |accounts|
    requires SafeUntilAbort(settings, rounds)
    decreases |rounds|
  {
    if rounds == [] then []
    else match rounds[0].fetched
      case Err(reason) =>
        [FetchFailed(accounts[0].id, reason)] + SyncEvents(settings, accounts[1..], rounds[1..], provider)
      case Ok(batch) =>
        var here := ClassifyBatch(settings, batch, provider).events;
        if rounds[0].saved.Err? then here else here + SyncEvents(settings, accounts[1..], rounds[1..], provider)
  }

  /** The preconditions of the loop carry over to the rounds after the
      first, unless the first round's save fails. */
  lemma SafeStep(settings: AppSettings, rounds: seq<Round>)
    requires rounds != [] && SafeUntilAbort(settings, rounds)
    ensures rounds[0].fetched.Ok? ==> (ClassificationOn(settings) ==> Previewable(rounds[0].fetched.value))
    ensures !(rounds[0].fetched.Ok? && rounds[0].saved.Err?) ==> SafeUntilAbort(settings, rounds[1..])
  {
  }

  /** How the classified batches of the rounds relate to those of the
      rounds after the first. */
  lemma ClassifiedBatchesStep(settings: AppSettings, rounds: seq<Round>, provider: Request -> Reply)
    requires rounds != [] && SafeUntilAbort(settings, rounds)
    ensures rounds[0].fetched.Err? ==>
              SafeUntilAbort(settings, rounds[1..])
              && ClassifiedBatches(settings, rounds, provider) == ClassifiedBatches(settings, rounds[1..], provider)
    ensures rounds[0].fetched.Ok? ==> ClassificationOn(settings) ==> Previewable(rounds[0].fetched.value)
    ensures rounds[0].fetched.Ok? && rounds[0].saved.Ok? ==>
              SafeUntilAbort(settings, rounds[1..])
              && ClassifiedBatches(settings, rounds, provider)
                 == [ClassifyBatch(settings, rounds[0].fetched.value, provider).emails] + ClassifiedBatches(settings, rounds[1..], provider)
    ensures rounds[0].fetched.Ok? && rounds[0].saved.Err? ==>
              ClassifiedBatches(settings, rounds, provider) == [ClassifyBatch(settings, rounds[0].fetched.value, provider).emails]
  {
  }

  /** Classification keeps every id: the classified batches carry the ids
      of the batches as fetched. */
  lemma {:induction false} ClassifiedBatchesKeys(settings: AppSettings, rounds: seq<Round>, provider: Request -> Reply)
    requires SafeUntilAbort(settings, rounds)
    ensures AllKeys(ClassifiedBatches(settings, rounds, provider), EmailId) == AllKeys(FetchedBatches(rounds), EmailId)
    decreases |rounds|
  {
    if rounds != [] {
      ClassifiedBatchesStep(settings, rounds, provider);
      if rounds[0].fetched.Err? {
        ClassifiedBatchesKeys(settings, rounds[1..], provider);
      } else {
        var batch := rounds[0].fetched.value;
        var here := ClassifyBatch(settings, batch, provider).emails;
        SameKeysPointwise(here, batch, EmailId);
        var cs := ClassifiedBatches(settings, rounds, provider);
        var fs := FetchedBatches(rounds);
        if rounds[0].saved.Ok? {
          ClassifiedBatchesKeys(settings, rounds[1..], provider);
          assert cs[0] == here && cs[1..] == ClassifiedBatches(settings, rounds[1..], provider);
          assert fs[0] == batch && fs[1..] == FetchedBatches(rounds[1..]);
        } else {
          assert cs[0] == here && cs[1..] == [];
          assert fs[0] == batch && fs[1..] == [];
        }
      }
    }
  }

  /** With classification off, the batches are merged as fetched. */
  lemma {:induction false} ClassifiedBatchesOff(settings: AppSettings, rounds: seq<Round>, provider: Request -> Reply)
    requires !ClassificationOn(settings)
    ensures SafeUntilAbort(settings, rounds)
    ensures ClassifiedBatches(settings, rounds, provider) == FetchedBatches(rounds)
    decreases |rounds|
  {
    SafeWithoutClassifier(settings, rounds);
    if rounds != [] {
      ClassifiedBatchesStep(settings, rounds, provider);
      ClassifiedBatchesOff(settings, rounds[1..], provider);
      if rounds[0].fetched.Ok? {
        assert ClassifyBatch(settings, rounds[0].fetched.value, provider).emails == rounds[0].fetched.value;
      }
    }
  }

  /** The loop of `sync_emails` over the accounts, from the email list
      `emails`: a failed fetch is logged and skipped; a fetched batch is
      classified and merged with `add_emails`, whose failure ends the command
      with that error. The command fails exactly when some save fails, with
      the first such error; the list only ever grows at the front (what it
      gains is stated by `SyncMergesBatches`, what it reports by
      `SyncReportsEvents`). */
  function SyncFrom(settings: AppSettings, accounts: seq<EmailAccount>, rounds: seq<Round>,
                    emails: seq<Email>, provider: Request -> Reply): (o: Synced)
    requires |rounds| == |accounts|
    requires SafeUntilAbort(settings, rounds)
    ensures o.status == (match FirstFailedSave(rounds) case None => Ok(()) case Some(i) => rounds[i].saved)
    ensures |emails| <= |o.emails| && o.emails[|o.emails| - |emails|..] == emails
    decreases |rounds|
  {
    if rounds == [] then Synced(emails, [], Ok(()))
    else
      var round := rounds[0];
      FirstFailedSaveStep(rounds);
      match round.fetched
      case Err(reason) =>
        var rest := SyncFrom(settings, accounts[1..], rounds[1..], emails, provider);
        Synced(rest.emails, [FetchFailed(accounts[0].id, reason)] + rest.events, rest.status)
      case Ok(batch) =>
        var classified := ClassifyBatch(settings, batch, provider);
        var merged := InsertNew(emails, classified.emails, EmailId);
        InsertNewShape(emails, classified.emails, EmailId);
        assert merged[|merged| - |emails|..] == emails;
        if round.saved.Err? then
          Synced(merged, classified.events, round.saved)
        else
          var rest := SyncFrom(settings, accounts[1..], rounds[1..], merged, provider);
          Synced(rest.emails, classified.events + rest.events, rest.status)
  }

  /** One step of the loop over an account whose fetch succeeded: the
      classified batch is merged, and the loop goes on from the merged list
      unless its save fails. */
  lemma FetchedStep(settings: AppSettings, accounts: seq<EmailAccount>, rounds: seq<Round>,
                    emails: seq<Email>, provider: Request -> Reply)
    requires |rounds| == |accounts| && rounds != [] && rounds[0].fetched.Ok?
    requires SafeUntilAbort(settings, rounds)
    ensures ClassificationOn(settings) ==> Previewable(rounds[0].fetched.value)
    ensures rounds[0].saved.Ok? ==> SafeUntilAbort(settings, rounds[1..])
    ensures var merged := InsertNew(emails, ClassifyBatch(settings, rounds[0].fetched.value, provider).emails, EmailId);
            SyncFrom(settings, accounts, rounds, emails, provider).emails
            == if rounds[0].saved.Err? then merged else SyncFrom(settings, accounts[1..], rounds[1..], merged, provider).emails
  {
  }

  /** The loop merges its classified batches one after another, in account
      order, and stops after the first whose save fails. */
  lemma {:induction false} SyncMergesBatches(settings: AppSettings, accounts: seq<EmailAccount>, rounds: seq<Round>,
                                             emails: seq<Email>, provider: Request -> Reply)
    requires |rounds| == |accounts|
    requires SafeUntilAbort(settings, rounds)
    ensures SyncFrom(settings, accounts, rounds, emails, provider).emails
            == MergeAll(emails, ClassifiedBatches(settings, rounds, provider), EmailId)
    decreases |rounds|
  {
    if rounds != [] {
      ClassifiedBatchesStep(settings, rounds, provider);
      var cs := ClassifiedBatches(settings, rounds, provider);
      if rounds[0].fetched.Err? {
        FailedFetchStep(settings, accounts, rounds, emails, provider);
        SyncMergesBatches(settings, accounts[1..], rounds[1..], emails, provider);
      } else {
        var merged := InsertNew(emails, ClassifyBatch(settings, rounds[0].fetched.value, provider).emails, EmailId);
        FetchedStep(settings, accounts, rounds, emails, provider);
        assert MergeAll(emails, cs, EmailId) == MergeAll(merged, cs[1..], EmailId);
        if rounds[0].saved.Ok? {
          assert cs[1..] == ClassifiedBatches(settings, rounds[1..], provider);
          SyncMergesBatches(settings, accounts[1..], rounds[1..], merged, provider);
        } else {
          assert cs[1..] == [];
        }
      }
    }
  }

  /** One step of the loop over an account whose fetch succeeded, as far as
      the log goes: the batch's notifications come first, then the rest of
      the loop's unless the batch's save fails. */
  lemma FetchedEventsStep(settings: AppSettings, accounts: seq<EmailAccount>, rounds: seq<Round>,
                          emails: seq<Email>, provider: Request -> Reply)
    requires |rounds| == |accounts| && rounds != [] && rounds[0].fetched.Ok?
    requires SafeUntilAbort(settings, rounds)
    ensures rounds[0].saved.Ok? ==> SafeUntilAbort(settings, rounds[1..])
    ensures var here := ClassifyBatch(settings, rounds[0].fetched.value, provider);
            var merged := InsertNew(emails, here.emails, EmailId);
            SyncFrom(settings, accounts, rounds, emails, provider).events
            == if rounds[0].saved.Err? then here.events
               else here.events + SyncFrom(settings, accounts[1..], rounds[1..], merged, provider).events
  {
  }

  /** The loop reports exactly `SyncEvents`: the log depends on the rounds
      and the provider, not on the stored list. */
  lemma {:induction false} SyncReportsEvents(settings: AppSettings, accounts: seq<EmailAccount>, rounds: seq<Round>,
                                             emails: seq<Email>, provider: Request -> Reply)
    requires |rounds| == |accounts|
    requires SafeUntilAbort(settings, rounds)
    ensures SyncFrom(settings, accounts, rounds, emails, provider).events == SyncEvents(settings, accounts, rounds, provider)
    decreases |rounds|
  {
    if rounds != [] {
      SafeStep(settings, rounds);
      if rounds[0].fetched.Err? {
        FailedFetchStep(settings, accounts, rounds, emails, provider);
        SyncReportsEvents(settings, accounts[1..], rounds[1..], emails, provider);
      } else {
        var here := ClassifyBatch(settings, rounds[0].fetched.value, provider);
        var merged := InsertNew(emails, here.emails, EmailId);
        FetchedEventsStep(settings, accounts, rounds, emails, provider);
        if rounds[0].saved.Ok? {
          SyncReportsEvents(settings, accounts[1..], rounds[1..], merged, provider);
        }
      }
    }
  }

  /** What a sync stores, by id: the list gains exactly the ids of the
      batches fetched, up to and including the one whose save fails. */
  lemma SyncStoresIds(settings: AppSettings, accounts: seq<EmailAccount>, rounds: seq<Round>,
                      emails: seq<Email>, provider: Request -> Reply)
    requires |rounds| == |accounts|
    requires SafeUntilAbort(settings, rounds)
    ensures KeySet(SyncFrom(settings, accounts, rounds, emails, provider).emails, EmailId)
            == KeySet(emails, EmailId) + AllKeys(FetchedBatches(rounds), EmailId)
  {
    SyncMergesBatches(settings, accounts, rounds, emails, provider);
    MergeAllKeys(emails, ClassifiedBatches(settings, rounds, provider), EmailId);
    ClassifiedBatchesKeys(settings, rounds, provider);
  }

  /** What a sync stores, by content: everything the list gains is an email
      of those batches as classified. */
  lemma SyncStoresClassified(settings: AppSettings, accounts: seq<EmailAccount>, rounds: seq<Round>,
                             emails: seq<Email>, provider: Request -> Reply)
    requires |rounds| == |accounts|
    requires SafeUntilAbort(settings, rounds)
    ensures var o := SyncFrom(settings, accounts, rounds, emails, provider).emails;
            forall j :: 0 <= j < |o| - |emails| ==> o[j] in Flatten(ClassifiedBatches(settings, rounds, provider))
  {
    SyncMergesBatches(settings, accounts, rounds, emails, provider);
    MergeAllFront(emails, ClassifiedBatches(settings, rounds, provider), EmailId);
  }

  /** `sync_emails` on a store: the accounts and settings are read once at
      the start; only the email list changes. */
  function SyncEmails(st: Store, rounds: seq<Round>, provider: Request -> Reply): (r: (Store, seq<Event>, Result<()>))
    requires |rounds| == |st.accounts|
    requires SafeUntilAbort(st.settings, rounds)
    ensures r.0 == st.(emails := r.0.emails)
    ensures r.2.Ok? <==> AllSavesOk(rounds)
    ensures |st.emails| <= |r.0.emails| && r.0.emails[|r.0.emails| - |st.emails|..] == st.emails
    ensures KeySet(r.0.emails, EmailId) == KeySet(st.emails, EmailId) + AllKeys(FetchedBatches(rounds), EmailId)
    ensures forall j :: 0 <= j < |r.0.emails| - |st.emails| ==>
              r.0.emails[j] in Flatten(ClassifiedBatches(st.settings, rounds, provider))
    ensures r.1 == SyncEvents(st.settings, st.accounts, rounds, provider)
  {
    SyncReportsEvents(st.settings, st.accounts, rounds, st.emails, provider);
    SyncStoresIds(st.settings, st.accounts, rounds, st.emails, provider);
    SyncStoresClassified(st.settings, st.accounts, rounds, st.emails, provider);
    var o := SyncFrom(st.settings, st.accounts, rounds, st.emails, provider);
    (st.(emails := o.emails), o.events, o.status)
  }

  /** A failed fetch is isolated: dropping that account from the sync leaves
      the stored emails and the result as they were. */
  lemma {:induction false} FailedFetchIsolated(settings: AppSettings, accounts: seq<EmailAccount>, rounds: seq<Round>,
                                               emails: seq<Email>, provider: Request -> Reply, k: nat)
    requires |rounds| == |accounts| && SafeUntilAbort(settings, rounds)
    requires k < |rounds| && rounds[k].fetched.Err?
    ensures SafeUntilAbort(settings, rounds[..k] + rounds[k + 1..])
    ensures var full := SyncFrom(settings, accounts, rounds, emails, provider);
            var without := SyncFrom(settings, accounts[..k] + accounts[k + 1..], rounds[..k] + rounds[k + 1..], emails, provider);
            full.emails == without.emails && full.status == without.status
    decreases |rounds|
  {
    var rs := rounds[..k] + rounds[k + 1..];
    var as_ := accounts[..k] + accounts[k + 1..];
    if k == 0 {
      assert rs == rounds[1..] && as_ == accounts[1..];
    } else {
      var round := rounds[0];
      assert rs[0] == round && rs[1..] == rounds[1..][..k - 1] + rounds[1..][k..];
      assert as_[1..] == accounts[1..][..k - 1] + accounts[1..][k..];
      match round.fetched
      case Err(_) =>
        FailedFetchIsolated(settings, accounts[1..], rounds[1..], emails, provider, k - 1);
      case Ok(batch) =>
        if round.saved.Ok? {
          var merged := InsertNew(emails, ClassifyBatch(settings, batch, provider).emails, EmailId);
          FailedFetchIsolated(settings, accounts[1..], rounds[1..], merged, provider, k - 1);
        }
    }
  }

  /** One step of the loop over an account whose fetch failed. */
  lemma FailedFetchStep(settings: AppSettings, accounts: seq<EmailAccount>, rounds: seq<Round>,
                         emails: seq<Email>, provider: Request -> Reply)
    requires |rounds| == |accounts| && rounds != [] && rounds[0].fetched.Err?
    requires SafeUntilAbort(settings, rounds[1..])
    ensures SafeUntilAbort(settings, rounds)
    ensures var rest := SyncFrom(settings, accounts[1..], rounds[1..], emails, provider);
            SyncFrom(settings, accounts, rounds, emails, provider)
            == Synced(rest.emails, [FetchFailed(accounts[0].id, rounds[0].fetched.error)] + rest.events, rest.status)
  {
  }

  /** When every fetch fails, no batch needs a preview. */
  lemma {:induction false} AllFetchesFailSafe(settings: AppSettings, rounds: seq<Round>)
    requires forall i :: 0 <= i < |rounds| ==> rounds[i].fetched.Err?
    ensures SafeUntilAbort(settings, rounds)
    decreases |rounds|
  {
    if rounds != [] {
      assert forall i :: 0 <= i < |rounds[1..]| ==> rounds[1..][i] == rounds[i + 1];
      AllFetchesFailSafe(settings, rounds[1..]);
    }
  }

  /** The log of a sync in which every fetch fails: one failure per account,
      in account order. */
  function FailureLog(accounts: seq<EmailAccount>, rounds: seq<Round>): (log: seq<Event>)
    requires |rounds| == |accounts|
    requires forall i :: 0 <= i < |rounds| ==> rounds[i].fetched.Err?
    ensures |log| == |accounts|
    ensures forall i :: 0 <= i < |accounts| ==> log[i] == FetchFailed(accounts[i].id, rounds[i].fetched.error)
    decreases |rounds|
  {
    if rounds == [] then []
    else
      assert forall i :: 0 <= i < |rounds[1..]| ==> rounds[1..][i] == rounds[i + 1];
      var rest := FailureLog(accounts[1..], rounds[1..]);
      assert forall i :: 0 <= i < |accounts[1..]| ==> accounts[1..][i] == accounts[i + 1];
      [FetchFailed(accounts[0].id, rounds[0].fetched.error)] + rest
  }

  /** When every fetch fails the command still succeeds, stores nothing, and
      logs one failure per account, in account order. */
  lemma {:induction false} AllFetchesFail(settings: AppSettings, accounts: seq<EmailAccount>, rounds: seq<Round>,
                                          emails: seq<Email>, provider: Request -> Reply)
    requires |rounds| == |accounts|
    requires forall i :: 0 <= i < |rounds| ==> rounds[i].fetched.Err?
    ensures SafeUntilAbort(settings, rounds)
    ensures SyncFrom(settings, accounts, rounds, emails, provider) == Synced(emails, FailureLog(accounts, rounds), Ok(()))
    decreases |rounds|
  {
    AllFetchesFailSafe(settings, rounds);
    if rounds != [] {
      assert forall i :: 0 <= i < |rounds[1..]| ==> rounds[1..][i].fetched.Err? by {
        forall i | 0 <= i < |rounds[1..]| ensures rounds[1..][i].fetched.Err? {
          assert rounds[1..][i] == rounds[i + 1];
        }
      }
      AllFetchesFailSafe(settings, rounds[1..]);
      AllFetchesFail(settings, accounts[1..], rounds[1..], emails, provider);
      FailedFetchStep(settings, accounts, rounds, emails, provider);
    }
  }

  /** Nothing after the round whose save fails matters: the loop has already
      returned. */
  lemma {:induction false} RoundsAfterAbortIrrelevant(settings: AppSettings, accounts: seq<EmailAccount>,
                                                      rounds: seq<Round>, later: seq<Round>, laterAccounts: seq<EmailAccount>,
                                                      emails: seq<Email>, provider: Request -> Reply, k: nat)
    requires |rounds| == |accounts| && |later| == |laterAccounts|
    requires k < |rounds| && rounds[k].fetched.Ok? && rounds[k].saved.Err?
    requires SafeUntilAbort(settings, rounds)
    ensures SafeUntilAbort(settings, rounds[..k + 1] + later)
    ensures SyncFrom(settings, accounts, rounds, emails, provider)
         == SyncFrom(settings, accounts[..k + 1] + laterAccounts, rounds[..k + 1] + later, emails, provider)
    decreases |rounds|
  {
    var rs := rounds[..k + 1] + later;
    var as_ := accounts[..k + 1] + laterAccounts;
    assert rs[0] == rounds[0] && as_[0] == accounts[0];
    if k > 0 {
      assert rs[1..] == rounds[1..][..k] + later;
      assert as_[1..] == accounts[1..][..k] + laterAccounts;
      match rounds[0].fetched
      case Err(_) =>
        RoundsAfterAbortIrrelevant(settings, accounts[1..], rounds[1..], later, laterAccounts, emails, provider, k - 1);
      case Ok(batch) =>
        if rounds[0].saved.Ok? {
          var merged := InsertNew(emails, ClassifyBatch(settings, batch, provider).emails, EmailId);
          RoundsAfterAbortIrrelevant(settings, accounts[1..], rounds[1..], later, laterAccounts, merged, provider, k - 1);
        }
    }
  }

  ghost predicate OnlyFetchFailures(events: seq<Event>)
  {
    forall i :: 0 <= i < |events| ==> events[i].FetchFailed?
  }

  /** With classification off, no batch needs a preview. */
  lemma {:induction false} SafeWithoutClassifier(settings: AppSettings, rounds: seq<Round>)
    requires !ClassificationOn(settings)
    ensures SafeUntilAbort(settings, rounds)
    decreases |rounds|
  {
    if rounds != [] {
      SafeWithoutClassifier(settings, rounds[1..]);
    }
  }

  /** With classification off, nothing but fetch failures is reported. */
  lemma {:induction false} SyncWithoutClassifierReportsOnlyFailures(settings: AppSettings, accounts: seq<EmailAccount>,
                                                                    rounds: seq<Round>, emails: seq<Email>, provider: Request -> Reply)
    requires !ClassificationOn(settings)
    requires |rounds| == |accounts|
    ensures SafeUntilAbort(settings, rounds)
    ensures OnlyFetchFailures(SyncFrom(settings, accounts, rounds, emails, provider).events)
    decreases |rounds|
  {
    SafeWithoutClassifier(settings, rounds);
    if rounds != [] {
      SafeWithoutClassifier(settings, rounds[1..]);
      var o := SyncFrom(settings, accounts, rounds, emails, provider);
      match rounds[0].fetched
      case Err(reason) =>
        var rest := SyncFrom(settings, accounts[1..], rounds[1..], emails, provider);
        SyncWithoutClassifierReportsOnlyFailures(settings, accounts[1..], rounds[1..], emails, provider);
        assert o.events == [FetchFailed(accounts[0].id, reason)] + rest.events;
        forall i | 0 <= i < |o.events| ensures o.events[i].FetchFailed? {
          if i > 0 { assert o.events[i] == rest.events[i - 1]; }
        }
      case Ok(batch) =>
        assert ClassifyBatch(settings, batch, provider) == Batch(batch, []);
        if rounds[0].saved.Ok? {
          var merged := InsertNew(emails, batch, EmailId);
          var rest := SyncFrom(settings, accounts[1..], rounds[1..], merged, provider);
          SyncWithoutClassifierReportsOnlyFailures(settings, accounts[1..], rounds[1..], merged, provider);
          assert o.events == [] + rest.events;
        } else {
          assert o.events == [];
        }
    }
  }

  /** With classification off, every fetched batch is merged exactly as
      fetched, in account order, up to and including the one whose save
      fails. */
  lemma SyncWithoutClassifierStoresRaw(settings: AppSettings, accounts: seq<EmailAccount>, rounds: seq<Round>,
                                       emails: seq<Email>, provider: Request -> Reply)
    requires !ClassificationOn(settings)
    requires |rounds| == |accounts|
    ensures SafeUntilAbort(settings, rounds)
    ensures SyncFrom(settings, accounts, rounds, emails, provider).emails == MergeAll(emails, FetchedBatches(rounds), EmailId)
  {
    ClassifiedBatchesOff(settings, rounds, provider);
    SyncMergesBatches(settings, accounts, rounds, emails, provider);
  }

  /** With classification off, the list `add_emails` builds from the first
      raw batch ends up at the back of the result. */
  lemma SyncWithoutClassifierKeepsFirstBatch(settings: AppSettings, accounts: seq<EmailAccount>, rounds: seq<Round>,
                                             emails: seq<Email>, provider: Request -> Reply)
    requires !ClassificationOn(settings)
    requires |rounds| == |accounts| && SafeUntilAbort(settings, rounds)
    requires rounds != [] && rounds[0].fetched.Ok?
    ensures EndsWith(SyncFrom(settings, accounts, rounds, emails, provider).emails,
                     InsertNew(emails, rounds[0].fetched.value, EmailId))
  {
    SyncWithoutClassifierStoresRaw(settings, accounts, rounds, emails, provider);
    assert FetchedBatches(rounds)[0] == rounds[0].fetched.value;
    MergeAllFirst(emails, FetchedBatches(rounds), EmailId);
  }

  // ---------------------------------------------------------------------------
  // Auto-delete

  /** As written: `continue` only skips the notification, so turning
      auto-delete on changes nothing; Marketing emails are stored like any
      other. */
  lemma AutoDeleteIsNoOp(cfg: AIConfig, notifications: bool, e: Email, provider: Request -> Reply)
    requires cfg.enabled ==> PreviewDefined(e.body)
    ensures ClassifyOne(cfg.(autoDelete := true), notifications, e, provider)
         == ClassifyOne(cfg.(autoDelete := false), notifications, e, provider)
  {
    if cfg.enabled {
      assert BuildRequest(cfg.(autoDelete := true), Prompt(e.subject, e.body))
          == BuildRequest(cfg.(autoDelete := false), Prompt(e.subject, e.body));
    }
  }

  /** The classification step as the comment on the `continue` intends:
      with auto-delete on, emails classified Marketing are not stored. */
  function ClassifyBatchDroppingMarketing(settings: AppSettings, batch: seq<Email>, provider: Request -> Reply): (r: Batch)
    requires ClassificationOn(settings) ==> Previewable(batch)
    ensures |r.emails| <= |batch|
    decreases |batch|
  {
    if !ClassificationOn(settings) || batch == [] then Batch(batch, [])
    else
      var cfg := settings.aiConfig.value;
      var cl := ClassifyEmail(cfg, batch[0], provider);
      var rest := ClassifyBatchDroppingMarketing(settings, batch[1..], provider);
      if cfg.autoDelete && cl.Ok? && cl.value.category == Marketing then rest
      else
        var one := ClassifyOne(cfg, settings.notifications, batch[0], provider);
        Batch([one.email] + rest.emails, one.events + rest.events)
  }

  /** The email carries a Marketing classification. */
  predicate TaggedMarketing(e: Email)
  {
    e.aiClassification.Some? && e.aiClassification.value.category == Marketing
  }

  /** No email in the list carries a Marketing classification. */
  ghost predicate NoMarketing(es: seq<Email>)
  {
    forall i :: 0 <= i < |es| ==> !TaggedMarketing(es[i])
  }

  /** The emails of the list that are not tagged Marketing, in order. */
  function KeepNonMarketing(es: seq<Email>): (r: seq<Email>)
    ensures NoMarketing(r)
    ensures |r| <= |es|
    ensures forall i :: 0 <= i < |r| ==> r[i] in es
    ensures (forall i :: 0 <= i < |es| ==> !TaggedMarketing(es[i])) ==> r == es
    decreases |es|
  {
    if es == [] then []
    else
      var rest := KeepNonMarketing(es[1..]);
      if TaggedMarketing(es[0]) then rest
      else
        assert forall i :: 0 <= i < |rest| ==> rest[i] in es[1..];
        [es[0]] + rest
  }

  /** With auto-delete on, no freshly fetched email that the provider
      classified as Marketing is kept. */
  lemma {:induction false} DroppingMarketingKeepsNone(settings: AppSettings, batch: seq<Email>, provider: Request -> Reply)
    requires ClassificationOn(settings) ==> Previewable(batch)
    requires ClassificationOn(settings) && settings.aiConfig.value.autoDelete
    requires forall i :: 0 <= i < |batch| ==> batch[i].aiClassification.None?
    ensures NoMarketing(ClassifyBatchDroppingMarketing(settings, batch, provider).emails)
    decreases |batch|
  {
    if batch != [] {
      var cfg := settings.aiConfig.value;
      DroppingMarketingKeepsNone(settings, batch[1..], provider);
      var rest := ClassifyBatchDroppingMarketing(settings, batch[1..], provider);
      var cl := ClassifyEmail(cfg, batch[0], provider);
      if !(cl.Ok? && cl.value.category == Marketing) {
        ClassifyOneNotifyIff(cfg, settings.notifications, batch[0], provider);
        var one := ClassifyOne(cfg, settings.notifications, batch[0], provider);
        var es := [one.email] + rest.emails;
        assert ClassifyBatchDroppingMarketing(settings, batch, provider).emails == es;
        forall i | 0 <= i < |es| ensures !TaggedMarketing(es[i]) {
          if i > 0 { assert es[i] == rest.emails[i - 1]; }
        }
      }
    }
  }

  /** With auto-delete on, the corrected step keeps exactly the freshly
      fetched emails that the unchanged step would store untagged or tagged
      other than Marketing, in batch order, with the same notifications. */
  lemma {:induction false} DroppingMarketingIsFilter(settings: AppSettings, batch: seq<Email>, provider: Request -> Reply)
    requires ClassificationOn(settings) && settings.aiConfig.value.autoDelete
    requires Previewable(batch)
    requires forall i :: 0 <= i < |batch| ==> batch[i].aiClassification.None?
    ensures ClassifyBatchDroppingMarketing(settings, batch, provider).emails
            == KeepNonMarketing(ClassifyBatch(settings, batch, provider).emails)
    ensures ClassifyBatchDroppingMarketing(settings, batch, provider).events == ClassifyBatch(settings, batch, provider).events
    decreases |batch|
  {
    if batch != [] {
      var cfg := settings.aiConfig.value;
      ClassifyBatchStep(settings, batch, provider);
      DroppingMarketingIsFilter(settings, batch[1..], provider);
      ClassifyOneNotifyIff(cfg, settings.notifications, batch[0], provider);
      var one := ClassifyOne(cfg, settings.notifications, batch[0], provider);
      var rest := ClassifyBatch(settings, batch[1..], provider);
      var all := [one.email] + rest.emails;
      assert all[0] == one.email && all[1..] == rest.emails;
      var cl := ClassifyEmail(cfg, batch[0], provider);
      if cl.Ok? && cl.value.category == Marketing {
        assert TaggedMarketing(one.email);
        assert one.events == [];
      } else {
        assert !TaggedMarketing(one.email);
      }
    }
  }

  /** With auto-delete off, the corrected step is the step as written. */
  lemma {:induction false} DroppingMarketingAgreesWhenOff(settings: AppSettings, batch: seq<Email>, provider: Request -> Reply)
    requires ClassificationOn(settings) ==> Previewable(batch)
    requires !ClassificationOn(settings) || !settings.aiConfig.value.autoDelete
    ensures ClassifyBatchDroppingMarketing(settings, batch, provider) == ClassifyBatch(settings, batch, provider)
    decreases |batch|
  {
    if ClassificationOn(settings) && batch != [] {
      DroppingMarketingAgreesWhenOff(settings, batch[1..], provider);
    }
  }

  // ---------------------------------------------------------------------------
  // send_email and add_account

  /** `accounts.iter().find(|a| a.id == id)`, failing with "Account not found". */
  function FindAccount(accounts: seq<EmailAccount>, id: string): (r: Result<EmailAccount>)
    ensures r.Err? <==> id !in KeySet(accounts, AccountId)
    ensures r.Err? ==> r.error == "Account not found"
    ensures r.Ok? ==> exists i :: 0 <= i < |accounts| && accounts[i] == r.value && r.value.id == id
                                  && forall j :: 0 <= j < i ==> accounts[j].id != id
  {
    match Position(accounts, AccountId, id)
    case None => Err("Account not found")
    case Some(i) => Ok(accounts[i])
  }

  /** `send_email`: an unknown sender fails before anything is sent;
      otherwise the result is the sending's (`sent`). */
  function SendEmail(accounts: seq<EmailAccount>, fromAccountId: string, sent: Result<()>): (r: Result<()>)
    ensures fromAccountId !in KeySet(accounts, AccountId) ==> r == Err("Account not found")
    ensures fromAccountId in KeySet(accounts, AccountId) ==> r == sent
  {
    match FindAccount(accounts, fromAccountId)
    case Err(e) => Err(e)
    case Ok(_) => sent
  }

  /** `add_account`: an account without an id gets the freshly generated one
      (`newId`, a 36-character UUID); the account is then appended. */
  function AddAccountCommand(st: Store, account: EmailAccount, newId: string, saved: Result<()>): (m: Mutation)
    requires |newId| == 36
    ensures |m.store.accounts| == |st.accounts| + 1
    ensures m.store.accounts[..|st.accounts|] == st.accounts
    ensures var added := m.store.accounts[|st.accounts|];
            && added.id != ""
            && (account.id != "" ==> added == account)
            && added == account.(id := added.id)
    ensures account.id == "" ==> m.store.accounts[|st.accounts|].id == newId
    ensures m.store == st.(accounts := m.store.accounts)
    ensures m.status == saved
  {
    var withId := if account.id == "" then account.(id := newId) else account;
    Apply(st, AddAccount(withId), saved)
  }
}
