/** The JSON-file store (src-tauri/src/storage/mod.rs): three in-memory lists,
    each mutation followed by a rewrite of the matching file.

    The file system is not modelled. A mutation takes the outcome the file
    write would have (`saved`) as a parameter; loading takes what each file
    holds as a `FileState`. */
module Storage {
  import opened Wrappers
  import opened Types
  import opened Collections

  function AccountId(a: EmailAccount): string { a.id }
  function EmailId(e: Email): string { e.id }

  datatype Store = Store(accounts: seq<EmailAccount>, emails: seq<Email>, settings: AppSettings)

  /** What a mutating call leaves behind: the in-memory state, and what the
      call returns. The in-memory change is made before the save and is kept
      even when the save fails. */
  datatype Mutation = Mutation(store: Store, status: Result<()>)

  // ---------------------------------------------------------------------------
  // Mutations

  datatype Op =
    | AddAccount(account: EmailAccount)
    | UpdateAccount(id: string, account: EmailAccount)
    | DeleteAccount(id: string)
    | AddEmail(email: Email)
    | AddEmails(batch: seq<Email>)
    | UpdateEmail(id: string, email: Email)
    | DeleteEmail(id: string)
    | UpdateSettings(settings: AppSettings)

  /** Whether the call rewrites its file: the updates only when a record has
      the id, everything else always. */
  predicate Writes(st: Store, op: Op)
  {
    match op
    case UpdateAccount(id, _) => AnyHasKey(st.accounts, AccountId, id)
    case UpdateEmail(id, _) => AnyHasKey(st.emails, EmailId, id)
    case _ => true
  }

  /** The in-memory effect of one call. */
  function Effect(st: Store, op: Op): Store
  {
    match op
    case AddAccount(a) => st.(accounts := st.accounts + [a])
    case UpdateAccount(id, a) => st.(accounts := ReplaceFirst(st.accounts, AccountId, id, a).GetOr(st.accounts))
    case DeleteAccount(id) => st.(accounts := RemoveAll(st.accounts, AccountId, id))
    case AddEmail(e) => st.(emails := [e] + st.emails)
    case AddEmails(batch) => st.(emails := InsertNew(st.emails, batch, EmailId))
    case UpdateEmail(id, e) => st.(emails := ReplaceFirst(st.emails, EmailId, id, e).GetOr(st.emails))
    case DeleteEmail(id) => st.(emails := RemoveAll(st.emails, EmailId, id))
    case UpdateSettings(s) => st.(settings := s)
  }

  /** One store call: apply the change in memory, then save when the call
      saves, and return the save's outcome (`?`), or Ok when nothing is
      saved. */
  function Apply(st: Store, op: Op, saved: Result<()>): (m: Mutation)
    ensures m.status.Err? <==> Writes(st, op) && saved.Err?
    ensures m.status.Err? ==> m.status == saved
    ensures !Writes(st, op) ==> m.store == st
  {
    var next := Effect(st, op);
    Mutation(next, if Writes(st, op) then saved else Ok(()))
  }

  /** A failed save loses nothing in memory: the state after the call is the
      same whatever the save's outcome. */
  lemma SaveOutcomeOnlyAffectsStatus(st: Store, op: Op, s1: Result<()>, s2: Result<()>)
    ensures Apply(st, op, s1).store == Apply(st, op, s2).store
    ensures Writes(st, op) && s1.Err? ==> Apply(st, op, s1).status.Err? && Apply(st, op, s2).store == Effect(st, op)
  {
  }

  /** Each call touches only its own list. */
  lemma OpsTouchOneList(st: Store, op: Op, saved: Result<()>)
    ensures op.AddAccount? || op.UpdateAccount? || op.DeleteAccount? ==>
              Apply(st, op, saved).store == st.(accounts := Apply(st, op, saved).store.accounts)
    ensures op.AddEmail? || op.AddEmails? || op.UpdateEmail? || op.DeleteEmail? ==>
              Apply(st, op, saved).store == st.(emails := Apply(st, op, saved).store.emails)
    ensures op.UpdateSettings? ==> Apply(st, op, saved).store == st.(settings := op.settings)
  {
  }

  // ---------------------------------------------------------------------------
  // Properties of the individual calls

  /** `add_account` appends without checking ids, and `add_email` prepends
      without checking ids: both can create duplicates. */
  lemma AddAccountAndEmailDoNotDeduplicate(st: Store, a: EmailAccount, e: Email, saved: Result<()>)
    ensures Apply(st, AddAccount(a), saved).store.accounts == st.accounts + [a]
    ensures Apply(st, AddEmail(e), saved).store.emails == [e] + st.emails
    ensures e in st.emails ==> !UniqueKeys(Apply(st, AddEmail(e), saved).store.emails, EmailId)
  {
    if e in st.emails {
      var i :| 0 <= i < |st.emails| && st.emails[i] == e;
      var es := [e] + st.emails;
      assert es[0] == e && es[i + 1] == e;
    }
  }

  /** `add_emails`: the new emails of the batch go to the front, most recent
      of the batch first, ahead of the unchanged old list; ids stay unique;
      adding the same batch again is a no-op. */
  lemma AddEmailsProperties(st: Store, batch: seq<Email>, saved: Result<()>)
    ensures Apply(st, AddEmails(batch), saved).store.emails
            == Reverse(Fresh(KeySet(st.emails, EmailId), batch, EmailId)) + st.emails
    ensures UniqueKeys(st.emails, EmailId) ==> UniqueKeys(Apply(st, AddEmails(batch), saved).store.emails, EmailId)
    ensures Effect(Effect(st, AddEmails(batch)), AddEmails(batch)) == Effect(st, AddEmails(batch))
  {
    InsertNewShape(st.emails, batch, EmailId);
    if UniqueKeys(st.emails, EmailId) { InsertNewUnique(st.emails, batch, EmailId); }
    InsertNewIdempotent(st.emails, batch, EmailId);
  }

  /** `update_email` with an unknown id changes nothing and reports success
      even when the disk is failing; with a known id it replaces the first
      match only. */
  lemma UpdateEmailProperties(st: Store, id: string, e: Email, saved: Result<()>)
    ensures id !in KeySet(st.emails, EmailId) ==> Apply(st, UpdateEmail(id, e), saved) == Mutation(st, Ok(()))
    ensures id in KeySet(st.emails, EmailId) ==>
              exists i :: 0 <= i < |st.emails| && EmailId(st.emails[i]) == id
                          && (forall j :: 0 <= j < i ==> EmailId(st.emails[j]) != id)
                          && Apply(st, UpdateEmail(id, e), saved).store.emails == st.emails[i := e]
  {
    if id in KeySet(st.emails, EmailId) {
      var i := Position(st.emails, EmailId, id).value;
      assert ReplaceFirst(st.emails, EmailId, id, e) == Some(st.emails[i := e]);
      assert Apply(st, UpdateEmail(id, e), saved).store.emails == st.emails[i := e];
    }
  }

  /** `delete_email` removes every email with the id, keeps the others, and
      always saves, even when nothing was removed. */
  lemma DeleteEmailProperties(st: Store, id: string, saved: Result<()>)
    ensures id !in KeySet(Apply(st, DeleteEmail(id), saved).store.emails, EmailId)
    ensures forall i :: 0 <= i < |st.emails| && st.emails[i].id != id ==>
              st.emails[i] in Apply(st, DeleteEmail(id), saved).store.emails
    ensures Apply(st, DeleteEmail(id), saved).status == saved
    ensures id !in KeySet(st.emails, EmailId) ==> Apply(st, DeleteEmail(id), saved).store == st
  {
    RemoveAllIdempotent(st.emails, EmailId, id);
    if id !in KeySet(st.emails, EmailId) {
      RemoveAllAbsent(st.emails, EmailId, id);
    }
  }

  // ---------------------------------------------------------------------------
  // Loading: Store::new

  /** What `Store::new` finds for one file: no file, a file that cannot be
      read, or a file whose contents parse (Some) or do not (None). */
  datatype FileState<T> = Missing | Unreadable(reason: string) | Present(parsed: Option<T>)

  const DefaultSettings: AppSettings := AppSettings(true, None, System)

  /** A list file: missing or unparsable gives the empty list, unreadable is
      an error. */
  function LoadList<T>(f: FileState<seq<T>>): (r: Result<seq<T>>)
    ensures r.Err? <==> f.Unreadable?
    ensures f.Unreadable? ==> r == Err(f.reason)
    ensures f.Present? && f.parsed.Some? ==> r == Ok(f.parsed.value)
    ensures f == Missing || f == Present(None) ==> r == Ok([])
  {
    match f
    case Missing => Ok([])
    case Unreadable(reason) => Err(reason)
    case Present(parsed) => Ok(parsed.GetOr([]))
  }

  /** The settings file: missing or unparsable gives the defaults
      (notifications on, no classifier, system theme). */
  function LoadSettings(f: FileState<AppSettings>): (r: Result<AppSettings>)
    ensures r.Err? <==> f.Unreadable?
    ensures f.Unreadable? ==> r == Err(f.reason)
    ensures f.Present? && f.parsed.Some? ==> r == Ok(f.parsed.value)
    ensures f == Missing || f == Present(None) ==> r == Ok(DefaultSettings)
  {
    match f
    case Missing => Ok(DefaultSettings)
    case Unreadable(reason) => Err(reason)
    case Present(parsed) => Ok(parsed.GetOr(DefaultSettings))
  }

  /** `Store::new`: create the directory, then load accounts, emails and
      settings in that order; the first error aborts. */
  function NewStore(dir: Result<()>, accounts: FileState<seq<EmailAccount>>,
                    emails: FileState<seq<Email>>, settings: FileState<AppSettings>): (r: Result<Store>)
    ensures r.Ok? <==> dir.Ok? && !accounts.Unreadable? && !emails.Unreadable? && !settings.Unreadable?
    ensures r.Err? && dir.Err? ==> r == Err(dir.error)
    ensures r.Err? && dir.Ok? && accounts.Unreadable? ==> r == Err(accounts.reason)
    ensures r.Err? && dir.Ok? && !accounts.Unreadable? && emails.Unreadable? ==> r == Err(emails.reason)
    ensures r.Err? && dir.Ok? && !accounts.Unreadable? && !emails.Unreadable? ==> r == Err(settings.reason)
    ensures r.Ok? ==> r.value.accounts == (if accounts.Present? && accounts.parsed.Some? then accounts.parsed.value else [])
    ensures r.Ok? ==> r.value.emails == (if emails.Present? && emails.parsed.Some? then emails.parsed.value else [])
    ensures r.Ok? ==> r.value.settings == (if settings.Present? && settings.parsed.Some? then settings.parsed.value else DefaultSettings)
  {
    if dir.Err? then Err(dir.error)
    else match (LoadList(accounts), LoadList(emails), LoadSettings(settings))
      case (Err(e), _, _) => Err(e)
      case (_, Err(e), _) => Err(e)
      case (_, _, Err(e)) => Err(e)
      case (Ok(a), Ok(m), Ok(s)) => Ok(Store(a, m, s))
  }

  /** What the store saves it loads back: files holding the store's own
      lists and settings give the same store. */
  lemma SavedStoreReloads(st: Store)
    ensures NewStore(Ok(()), Present(Some(st.accounts)), Present(Some(st.emails)), Present(Some(st.settings))) == Ok(st)
  {
  }

  /** A fresh data directory gives an empty store with default settings, and
      corrupt files are read as if they were missing. */
  lemma NewStoreDefaults(accounts: FileState<seq<EmailAccount>>, emails: FileState<seq<Email>>,
                         settings: FileState<AppSettings>)
    requires accounts == Missing || accounts == Present(None)
    requires emails == Missing || emails == Present(None)
    requires settings == Missing || settings == Present(None)
    ensures NewStore(Ok(()), accounts, emails, settings) == Ok(Store([], [], DefaultSettings))
  {
  }
}
