/** Worked runs of the pipeline on concrete inputs: the demo message through
    the classifier, and one sync over two accounts. The provider is a fixed
    function of the request. */
module PipelineScenarios {
  import opened Wrappers
  import opened Text
  import opened Extract
  import opened Types
  import opened Classifier
  import opened Collections
  import opened Storage
  import opened Commands
  import opened Scenarios

  // ---------------------------------------------------------------------------
  // The demo message through the classifier

  /** A provider that gives the same answer to every request. */
  function Answering(answer: string): Request -> Reply
  {
    (r: Request) => Response(200, Json(Some(answer)))
  }

  const DemoSubject: string := "Your verification code: 123456"

  function DemoEmail(): Email
  {
    Email("demo-1", "acct-1", DemoSubject, EmailAddress(Some("Security"), "security@example.com"),
          [], None, None, "", DemoBody(), None, None, false, false, None, None)
  }

  const OpenAIConfig: AIConfig := AIConfig(true, OpenAI, "sk-test", None, None, false)

  /** The demo body fits in the preview. */
  lemma DemoBodyPreviewable()
    ensures PreviewDefined(DemoBody())
  {
    DemoBodyText();
    Utf8LenAtMost(DemoBody());
  }

  /** When the provider answers "verification", the demo message is classified
      Verification and notifies. It carries the code "code" and no link. */
  lemma DemoEmailClassified()
    ensures PreviewDefined(DemoEmail().body)
    ensures ClassifyEmail(OpenAIConfig, DemoEmail(), Answering("verification"))
         == Ok(AIClassification(Verification, Some("code"), None, true))
  {
    DemoBodyPreviewable();
    DemoCodeIsTheWordCode();
    DemoHasNoLink();
    CategoryOfOwnName(Verification);
    var r := ClassifyEmail(OpenAIConfig, DemoEmail(), Answering("verification"));
    assert r.Ok?;
    assert r.value.category == Verification;
  }

  // ---------------------------------------------------------------------------
  // One sync over two accounts. Account A cannot be reached. Account B brings
  // a marketing message and an important one. Auto-delete and notifications
  // are on.

  const NoServer: AccountConfig := AccountConfig(None, None, None, None, None, None)
  const AccountA: EmailAccount := EmailAccount("A", "Work", "a@example.com", None, None, Imap, None, NoServer)
  const AccountB: EmailAccount := EmailAccount("B", "Home", "b@example.com", None, None, Imap, None, NoServer)

  function Message(id: string, subject: string, sender: string): Email
  {
    Email(id, "B", subject, EmailAddress(None, sender), [], None, None, "", "", None, None, false, false, None, None)
  }

  function SaleMail(): Email { Message("m1", "Sale", "shop@example.com") }
  function MemoMail(): Email { Message("i1", "Memo", "boss@example.com") }

  const AutoDeleteConfig: AIConfig := AIConfig(true, OpenAI, "sk-test", None, None, true)
  const SyncSettings: AppSettings := AppSettings(true, Some(AutoDeleteConfig), System)

  /** The provider answers "marketing" to the prompt about the sale and
      "important" to anything else. */
  function BySubject(): Request -> Reply
  {
    (r: Request) => Response(200, Json(Some(if r.prompt == Prompt("Sale", "") then "marketing" else "important")))
  }

  function SyncRounds(): seq<Round>
  {
    [Round(Err("connection refused"), Ok(())), Round(Ok([SaleMail(), MemoMail()]), Ok(()))]
  }

  /** The email as stored after a successful classification with no code and
      no link. */
  function Tagged(e: Email, c: Category): Email
  {
    e.(aiClassification := Some(AIClassification(c, None, None, c == Important || c == Verification)))
  }

  lemma EmptyBodyExtractsNothing()
    ensures ExtractCode("") == None && ExtractLink("") == None
  {
    assert !Matches(CodeLabel, "") && !Matches(VerificationLabel, "") && !Matches(IsYourCode, "");
    assert !Matches(SixDigits, "") && !Matches(VerificationLink, "");
  }

  lemma PromptsDiffer()
    ensures Prompt("Memo", "") != Prompt("Sale", "")
  {
    PromptDeterminesSubject("Memo", "Sale", "");
    assert "Memo"[0] != "Sale"[0];
  }

  lemma SaleIsMarketing()
    ensures ClassifyEmail(AutoDeleteConfig, SaleMail(), BySubject()) == Ok(AIClassification(Marketing, None, None, false))
  {
    EmptyBodyExtractsNothing();
    CategoryOfOwnName(Marketing);
    var r := ClassifyEmail(AutoDeleteConfig, SaleMail(), BySubject());
    assert BuildRequest(AutoDeleteConfig, Prompt("Sale", "")).prompt == Prompt("Sale", "");
    assert r.Ok? && r.value.category == Marketing;
  }

  lemma MemoIsImportant()
    ensures ClassifyEmail(AutoDeleteConfig, MemoMail(), BySubject()) == Ok(AIClassification(Important, None, None, true))
  {
    EmptyBodyExtractsNothing();
    PromptsDiffer();
    CategoryOfOwnName(Important);
    var r := ClassifyEmail(AutoDeleteConfig, MemoMail(), BySubject());
    assert BuildRequest(AutoDeleteConfig, Prompt("Memo", "")).prompt == Prompt("Memo", "");
    assert r.Ok? && r.value.category == Important;
  }

  /** The marketing message is tagged and kept, and gives no notification. */
  lemma SaleKeptSilently()
    ensures ClassifyOne(AutoDeleteConfig, true, SaleMail(), BySubject()) == Classified(Tagged(SaleMail(), Marketing), [])
  {
    SaleIsMarketing();
  }

  /** The important message is tagged and notifies. */
  lemma MemoNotifies()
    ensures ClassifyOne(AutoDeleteConfig, true, MemoMail(), BySubject())
         == Classified(Tagged(MemoMail(), Important), [Notified("Memo", "boss@example.com")])
  {
    MemoIsImportant();
  }

  lemma MemoBatchClassified()
    ensures ClassifyBatch(SyncSettings, [MemoMail()], BySubject())
         == Batch([Tagged(MemoMail(), Important)], [Notified("Memo", "boss@example.com")])
  {
    MemoNotifies();
    assert [MemoMail()][1..] == [];
  }

  lemma SyncBatchClassified()
    ensures ClassifyBatch(SyncSettings, [SaleMail(), MemoMail()], BySubject())
         == Batch([Tagged(SaleMail(), Marketing), Tagged(MemoMail(), Important)], [Notified("Memo", "boss@example.com")])
  {
    var batch := [SaleMail(), MemoMail()];
    assert batch[1..] == [MemoMail()];
    ClassifyBatchStep(SyncSettings, batch, BySubject());
    SaleKeptSilently();
    MemoBatchClassified();
  }

  /** `add_emails` on an empty list puts the later message of the batch first. */
  lemma MergedNewestFirst()
    ensures InsertNew([], [Tagged(SaleMail(), Marketing), Tagged(MemoMail(), Important)], EmailId)
         == [Tagged(MemoMail(), Important), Tagged(SaleMail(), Marketing)]
  {
    var kept := [Tagged(SaleMail(), Marketing), Tagged(MemoMail(), Important)];
    assert kept[1..] == [Tagged(MemoMail(), Important)] && kept[1..][1..] == [];
  }

  /** Account B's round on its own. */
  lemma SyncOfAccountB()
    ensures SafeUntilAbort(SyncSettings, SyncRounds()[1..])
    ensures SyncFrom(SyncSettings, [AccountB], SyncRounds()[1..], [], BySubject())
         == Synced([Tagged(MemoMail(), Important), Tagged(SaleMail(), Marketing)],
                   [Notified("Memo", "boss@example.com")], Ok(()))
  {
    var rounds := SyncRounds()[1..];
    assert rounds == [Round(Ok([SaleMail(), MemoMail()]), Ok(()))];
    assert rounds[1..] == [];
    SyncBatchClassified();
    MergedNewestFirst();
    var merged := [Tagged(MemoMail(), Important), Tagged(SaleMail(), Marketing)];
    assert SyncFrom(SyncSettings, [AccountB][1..], rounds[1..], merged, BySubject()) == Synced(merged, [], Ok(()));
  }

  /** The sync succeeds and logs the failure of account A. Both of B's
      messages are stored, the later one first, so auto-delete removed
      nothing. Only the important one notifies. */
  lemma SyncScenario()
    ensures SafeUntilAbort(SyncSettings, SyncRounds())
    ensures SyncFrom(SyncSettings, [AccountA, AccountB], SyncRounds(), [], BySubject())
         == Synced([Tagged(MemoMail(), Important), Tagged(SaleMail(), Marketing)],
                   [FetchFailed("A", "connection refused"), Notified("Memo", "boss@example.com")],
                   Ok(()))
  {
    var accounts, rounds := [AccountA, AccountB], SyncRounds();
    var stored := [Tagged(MemoMail(), Important), Tagged(SaleMail(), Marketing)];
    var notified := Notified("Memo", "boss@example.com");
    var rest := SyncFrom(SyncSettings, accounts[1..], rounds[1..], [], BySubject());
    assert SafeUntilAbort(SyncSettings, rounds[1..]) && rest == Synced(stored, [notified], Ok(())) by {
      assert accounts[1..] == [AccountB];
      SyncOfAccountB();
    }
    var failed := FetchFailed(accounts[0].id, rounds[0].fetched.error);
    assert SafeUntilAbort(SyncSettings, rounds)
        && SyncFrom(SyncSettings, accounts, rounds, [], BySubject()) == Synced(stored, [failed, notified], Ok(())) by {
      FailedFetchStep(SyncSettings, accounts, rounds, [], BySubject());
    }
    assert failed == FetchFailed("A", "connection refused");
  }
}
