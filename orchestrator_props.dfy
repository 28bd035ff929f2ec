/**
 * What execute_request and the polling loop promise about the ledger and about the
 * credentials, proved of the specification functions `Process` and `Run` (which the
 * `Worker` methods are proved to follow).
 */
module OrchestratorProps {
  import opened Wrappers
  import opened Errors
  import opened Text
  import opened Calendar
  import opened Helpers
  import opened Orchestrator

  function Last(es: seq<Effect>): Effect
    requires es != []
  {
    es[|es| - 1]
  }

  function DirOf(r: Request, timestamp: string): string {
    DownloadDir(r.iniHptlNo, r.reqSeq, timestamp)
  }

  predicate DatesParse(r: Request) {
    ParseIsoDate(r.schBgnde).Success? && ParseIsoDate(r.schEndde).Success?
  }

  /** No status is written among the first `n` effects. */
  predicate NoStatusBefore(es: seq<Effect>, n: int) {
    forall i :: 0 <= i < n && i < |es| ==> !es[i].UpdateStatus?
  }

  /**
   * The status discipline of one request: 'P' first; if an exception escapes, nothing
   * else; otherwise exactly one more status, a terminal one for the same row, as the last
   * effect.
   */
  predicate StatusesInOrder(reqSeq: string, a: Attempt) {
    && |a.effects| >= 1
    && a.effects[0] == UpdateStatus(reqSeq, InProgress, None, None, None)
    && (a.escaped.Some? ==> |a.effects| == 1)
    && (a.escaped.None? ==>
          && |a.effects| >= 2
          && Last(a.effects).UpdateStatus?
          && Last(a.effects).reqSeq == reqSeq
          && Last(a.effects).status != InProgress)
    && NoStatusBefore(a.effects[1..], |a.effects| - 2)
  }

  /**
   * `es[i]` is the 'S' write and the four effects ending in it are the adapter call, the
   * uploads of the two files that call returned (raw file to the API path, upload-ready
   * file to the upload path), both without fault, and then 'S' carrying both paths.
   */
  predicate CompletesAfterUploads(env: Env, r: Request, es: seq<Effect>, i: int) {
    && 3 <= i < |es|
    && es[i - 3].Retrieve? && es[i - 2].Upload? && es[i - 1].Upload?
    && env.retrieve(es[i - 3].call) == Success((es[i - 2].localPath, es[i - 1].localPath))
    && es[i - 2].remotePath == env.apiRemotePath && env.upload(es[i - 2].localPath, env.apiRemotePath).None?
    && es[i - 1].remotePath == env.uploadRemotePath && env.upload(es[i - 1].localPath, env.uploadRemotePath).None?
    && es[i] == UpdateStatus(r.reqSeq, Succeeded, None, Some(env.uploadRemotePath), Some(env.apiRemotePath))
  }

  predicate SuccessOnlyAfterUploads(env: Env, r: Request, es: seq<Effect>) {
    forall i :: 0 <= i < |es| && es[i].UpdateStatus? && es[i].status == Succeeded ==> CompletesAfterUploads(env, r, es, i)
  }

  /**
   * Inside the `try` block the only status write is the final 'S', and it comes only after
   * the adapter call and both uploads succeeded.
   */
  lemma TryTraceShape(env: Env, r: Request, dir: string)
    ensures NoStatusBefore(TryTrace(env, r, dir).effects, |TryTrace(env, r, dir).effects| - 1)
    ensures TryTrace(env, r, dir).outcome.Failure? ==> NoStatusBefore(TryTrace(env, r, dir).effects, |TryTrace(env, r, dir).effects|)
    ensures TryTrace(env, r, dir).outcome.Success? ==>
      |TryTrace(env, r, dir).effects| > 0 && CompletesAfterUploads(env, r, TryTrace(env, r, dir).effects, |TryTrace(env, r, dir).effects| - 1)
  {
    hide Prepare, Dispatch, Deliver;
    var t := TryTrace(env, r, dir);
    var p := Prepare(env, r);
    if p.outcome.Success? {
      var d := Dispatch(env, r, p.outcome.value, dir);
      if d.outcome.Success? {
        var u := Deliver(env, r, d.outcome.value);
        assert t.effects == p.effects + d.effects + u.effects;
        var n := |p.effects| + |d.effects|;
        var bound := if t.outcome.Success? then |t.effects| - 1 else |t.effects|;
        forall i | 0 <= i < bound
          ensures !t.effects[i].UpdateStatus?
        {
          if i < |p.effects| {
            assert t.effects[i] == p.effects[i];
          } else if i < n {
            assert t.effects[i] == d.effects[i - |p.effects|];
          } else {
            assert t.effects[i] == u.effects[i - n];
          }
        }
        if t.outcome.Success? {
          assert t.effects[n - 1] == d.effects[0];
          assert t.effects[n] == u.effects[0] && t.effects[n + 1] == u.effects[1] && t.effects[n + 2] == u.effects[2];
        }
      } else {
        assert t.effects == p.effects + d.effects;
        forall i | 0 <= i < |t.effects|
          ensures !t.effects[i].UpdateStatus?
        {
          if i < |p.effects| {
            assert t.effects[i] == p.effects[i];
          } else {
            assert t.effects[i] == d.effects[i - |p.effects|];
          }
        }
      }
    }
  }

  /**
   * Status ordering of one request: 'P' is the first thing written, before any decryption
   * or retrieval. If the set-up outside the `try` fails, that 'P' is all there is and the
   * set-up's exception escapes. Otherwise exactly one more status is written, the terminal
   * 'S' or 'E', and it is the last effect.
   */
  lemma ProcessShape(env: Env, r: Request, timestamp: string)
    ensures StatusesInOrder(r.reqSeq, Process(env, r, timestamp))
    ensures Process(env, r, timestamp).escaped == env.setup(DirOf(r, timestamp))
  {
    hide TryTrace;
    var a := Process(env, r, timestamp);
    var dir := DirOf(r, timestamp);
    if env.setup(dir).None? {
      var t := TryTrace(env, r, dir);
      TryTraceShape(env, r, dir);
      ProcessAfterSetup(env, r, timestamp);
      forall i | 0 <= i < |a.effects| - 2
        ensures !a.effects[1..][i].UpdateStatus?
      {
        assert a.effects[1..][i] == t.effects[i];
      }
    }
  }

  /** 'S' is written only right after the adapter call and both uploads, and carries both paths. */
  lemma SucceededOnlyAfterBothUploads(env: Env, r: Request, timestamp: string)
    ensures SuccessOnlyAfterUploads(env, r, Process(env, r, timestamp).effects)
  {
    hide TryTrace, Process, Prepare, Dispatch, Deliver;
    var a := Process(env, r, timestamp);
    var dir := DirOf(r, timestamp);
    ProcessShape(env, r, timestamp);
    if env.setup(dir).None? {
      var t := TryTrace(env, r, dir);
      TryTraceShape(env, r, dir);
      ProcessAfterSetup(env, r, timestamp);
      if t.outcome.Success? {
        assert a.effects == [a.effects[0]] + t.effects;
        var n := |a.effects| - 1;
        assert a.effects[n - 3] == t.effects[n - 4] && a.effects[n - 2] == t.effects[n - 3];
        assert a.effects[n - 1] == t.effects[n - 2] && a.effects[n] == t.effects[n - 1];
        assert CompletesAfterUploads(env, r, a.effects, n);
      }
      forall i | 0 <= i < |a.effects| && a.effects[i].UpdateStatus? && a.effects[i].status == Succeeded
        ensures CompletesAfterUploads(env, r, a.effects, i)
      {
        assert a.effects[1..][i - 1] == a.effects[i];
      }
    }
  }

  /**
   * The 'E' write: `es` ends in it, carrying `TypeName: message` of the exception `e` and
   * no paths.
   */
  predicate EndsInFailure(reqSeq: string, es: seq<Effect>, e: PyException) {
    es != [] && Last(es) == UpdateStatus(reqSeq, Failed, Some(e.typeName + ": " + e.message), None, None)
  }

  /** The terminal status of `a` reports how the `try` block `t` ended. */
  predicate RecordsOutcome(reqSeq: string, t: Step<()>, a: Attempt) {
    && (t.outcome.Failure? ==> EndsInFailure(reqSeq, a.effects, t.outcome.error))
    && (t.outcome.Success? ==> a.effects != [] && Last(a.effects).UpdateStatus? && Last(a.effects).status == Succeeded)
  }

  /**
   * Any exception inside the `try` ends the request with the 'E' write carrying its core
   * message; and when the `try` completes, the last status is not 'E'.
   */
  lemma FailureCarriesCoreMessage(env: Env, r: Request, timestamp: string)
    requires env.setup(DirOf(r, timestamp)).None?
    ensures RecordsOutcome(r.reqSeq, TryTrace(env, r, DirOf(r, timestamp)), Process(env, r, timestamp))
  {
    hide TryTrace, Process;
    ProcessShape(env, r, timestamp);
    ProcessAfterSetup(env, r, timestamp);
    TryTraceShape(env, r, DirOf(r, timestamp));
  }

  /** The messages `extract_core_error_message` gives a failed decryption, one per column. */
  lemma AccountPwFailedMessage()
    ensures CoreErrorMessage(DecryptionFailed(AccountPw)) == "ValueError: ACCOUNT_PW 복호화 실패"
  {
    assert "ValueError" + ": " + ("ACCOUNT_PW" + " 복호화 실패") == "ValueError: ACCOUNT_PW 복호화 실패";
  }

  lemma BirthdateFailedMessage()
    ensures CoreErrorMessage(DecryptionFailed(RprsntvBrthdy)) == "ValueError: RPRSNTV_BRTHDY 복호화 실패"
  {
    assert "ValueError" + ": " + ("RPRSNTV_BRTHDY" + " 복호화 실패") == "ValueError: RPRSNTV_BRTHDY 복호화 실패";
  }

  lemma AccountPw2FailedMessage()
    ensures CoreErrorMessage(DecryptionFailed(AccountPw2)) == "ValueError: ACCOUNT_PW2 복호화 실패"
  {
    assert "ValueError" + ": " + ("ACCOUNT_PW2" + " 복호화 실패") == "ValueError: ACCOUNT_PW2 복호화 실패";
  }

  /** A failed decryption of ACCOUNT_PW always fails the request, right after that decryption. */
  lemma AccountPasswordFailureFails(env: Env, r: Request, timestamp: string)
    requires env.setup(DirOf(r, timestamp)).None? && DatesParse(r)
    requires !Truthy(env.decrypt(r.accountPw))
    ensures Process(env, r, timestamp).effects == [
      UpdateStatus(r.reqSeq, InProgress, None, None, None),
      Decrypt(AccountPw, r.accountPw),
      UpdateStatus(r.reqSeq, Failed, Some("ValueError: ACCOUNT_PW 복호화 실패"), None, None)]
  {
    hide ParseIsoDate, FormatBirthdate, IsHex, Digits, Dispatch, Deliver, Process;
    ProcessAfterSetup(env, r, timestamp);
    AccountPwFailedMessage();
  }

  /** A hex-looking birthdate that fails to decrypt fails the request, right after that decryption. */
  lemma BirthdateDecryptFailureFails(env: Env, r: Request, timestamp: string)
    requires env.setup(DirOf(r, timestamp)).None? && DatesParse(r)
    requires Truthy(env.decrypt(r.accountPw))
    requires Truthy(r.rprsntvBrthdy) && IsHex(r.rprsntvBrthdy.value) && !Truthy(env.decrypt(r.rprsntvBrthdy.value))
    ensures Process(env, r, timestamp).effects == [
      UpdateStatus(r.reqSeq, InProgress, None, None, None),
      Decrypt(AccountPw, r.accountPw),
      Decrypt(RprsntvBrthdy, r.rprsntvBrthdy.value),
      UpdateStatus(r.reqSeq, Failed, Some("ValueError: RPRSNTV_BRTHDY 복호화 실패"), None, None)]
  {
    hide ParseIsoDate, FormatBirthdate, IsHex, Digits, Dispatch, Deliver, Process;
    ProcessAfterSetup(env, r, timestamp);
    BirthdateFailedMessage();
  }

  /** A hex-looking second password that fails to decrypt fails the request, right after that decryption. */
  lemma SecondPasswordDecryptFailureFails(env: Env, r: Request, timestamp: string)
    requires env.setup(DirOf(r, timestamp)).None? && DatesParse(r)
    requires Truthy(env.decrypt(r.accountPw))
    requires Birthdate(env, r.rprsntvBrthdy).outcome.Success?
    requires Truthy(r.accountPw2) && IsHex(r.accountPw2.value) && !Truthy(env.decrypt(r.accountPw2.value))
    ensures Process(env, r, timestamp).effects ==
      [UpdateStatus(r.reqSeq, InProgress, None, None, None), Decrypt(AccountPw, r.accountPw)]
      + Birthdate(env, r.rprsntvBrthdy).effects
      + [Decrypt(AccountPw2, r.accountPw2.value),
         UpdateStatus(r.reqSeq, Failed, Some("ValueError: ACCOUNT_PW2 복호화 실패"), None, None)]
  {
    hide ParseIsoDate, FormatBirthdate, IsHex, Digits, Dispatch, Deliver, Process, Birthdate;
    ProcessAfterSetup(env, r, timestamp);
    AccountPw2FailedMessage();
  }

  /**
   * A decryption of column `f` decrypts that column of `r`: ACCOUNT_PW always, and
   * RPRSNTV_BRTHDY or ACCOUNT_PW2 only when it is non-empty and passes is_hex.
   */
  predicate DecryptOfOwnColumn(r: Request, e: Effect)
    requires e.Decrypt?
  {
    match e.field
    case AccountPw => e.ciphertext == r.accountPw
    case RprsntvBrthdy => Truthy(r.rprsntvBrthdy) && IsHex(r.rprsntvBrthdy.value) && e.ciphertext == r.rprsntvBrthdy.value
    case AccountPw2 => Truthy(r.accountPw2) && IsHex(r.accountPw2.value) && e.ciphertext == r.accountPw2.value
  }

  predicate DecryptsOnlyOwnColumns(r: Request, es: seq<Effect>) {
    forall i :: 0 <= i < |es| ==> es[i].Decrypt? ==> DecryptOfOwnColumn(r, es[i])
  }

  lemma PrepareDecrypts(env: Env, r: Request)
    ensures DecryptsOnlyOwnColumns(r, Prepare(env, r).effects)
  {
    hide ParseIsoDate, FormatBirthdate, IsHex, Digits;
  }

  /** The `try` trace starts with Prepare's decryptions and has none after them. */
  lemma TryTraceAfterPrepare(env: Env, r: Request, dir: string)
    ensures |Prepare(env, r).effects| <= |TryTrace(env, r, dir).effects|
    ensures TryTrace(env, r, dir).effects[..|Prepare(env, r).effects|] == Prepare(env, r).effects
    ensures forall j :: |Prepare(env, r).effects| <= j < |TryTrace(env, r, dir).effects| ==> !TryTrace(env, r, dir).effects[j].Decrypt?
  {
    hide Prepare, Dispatch, Deliver;
    var t := TryTrace(env, r, dir);
    var p := Prepare(env, r);
    if p.outcome.Success? {
      var d := Dispatch(env, r, p.outcome.value, dir);
      if d.outcome.Success? {
        var u := Deliver(env, r, d.outcome.value);
        assert t.effects == p.effects + (d.effects + u.effects);
        forall j | |p.effects| <= j < |t.effects|
          ensures !t.effects[j].Decrypt?
        {
          if j < |p.effects| + |d.effects| {
            assert t.effects[j] == d.effects[j - |p.effects|];
          } else {
            assert t.effects[j] == u.effects[j - |p.effects| - |d.effects|];
          }
        }
      } else {
        assert t.effects == p.effects + d.effects;
        forall j | |p.effects| <= j < |t.effects|
          ensures !t.effects[j].Decrypt?
        {
          assert t.effects[j] == d.effects[j - |p.effects|];
        }
      }
    }
  }

  /** Values that do not look hex are used without decryption; every decryption is of the request's own column. */
  lemma DecryptsOnlyHexSecrets(env: Env, r: Request, timestamp: string)
    ensures DecryptsOnlyOwnColumns(r, Process(env, r, timestamp).effects)
  {
    hide TryTrace, Process, Prepare;
    var a := Process(env, r, timestamp);
    var dir := DirOf(r, timestamp);
    ProcessShape(env, r, timestamp);
    if env.setup(dir).None? {
      ProcessAfterSetup(env, r, timestamp);
      var t := TryTrace(env, r, dir);
      var p := Prepare(env, r);
      PrepareDecrypts(env, r);
      TryTraceAfterPrepare(env, r, dir);
      assert a.effects[1..|t.effects| + 1] == t.effects;
      forall i | 0 <= i < |a.effects|
        ensures a.effects[i].Decrypt? ==> DecryptOfOwnColumn(r, a.effects[i])
      {
        if 1 <= i <= |p.effects| {
          assert a.effects[i] == t.effects[i - 1] == p.effects[i - 1];
        } else if 1 <= i <= |t.effects| {
          assert a.effects[i] == t.effects[i - 1];
        }
      }
    }
  }

  /**
   * The second argument of the adapter: the business number for a corporate account ('01');
   * otherwise the birthdate column, which is passed on as it is when empty or missing,
   * decrypted first when it looks hex, and in both other cases reformatted.
   */
  predicate SecondaryArgument(env: Env, r: Request, secondary: Option<string>) {
    if r.accountSe == "01" then secondary == r.bizrno
    else if !Truthy(r.rprsntvBrthdy) then secondary == r.rprsntvBrthdy
    else if IsHex(r.rprsntvBrthdy.value) then
      Truthy(env.decrypt(r.rprsntvBrthdy.value)) && secondary == Some(FormatBirthdate(env.decrypt(r.rprsntvBrthdy.value).value))
    else secondary == Some(FormatBirthdate(r.rprsntvBrthdy.value))
  }

  /** What the birthdate stage hands on when the column is not a corporate account's. */
  predicate BirthdayValue(env: Env, value: Option<string>, birthday: Option<string>) {
    if !Truthy(value) then birthday == value
    else if IsHex(value.value) then
      Truthy(env.decrypt(value.value)) && birthday == Some(FormatBirthdate(env.decrypt(value.value).value))
    else birthday == Some(FormatBirthdate(value.value))
  }

  /**
   * The adapter is called for BANK001 only, the corporate one exactly for account type
   * '01', with the fixed driver path, the account number's digits, the decrypted
   * ACCOUNT_PW, the secondary argument above, both dates at midnight, and the request's
   * download directory. ACCOUNT_PW2 is never passed on.
   */
  predicate ProperAdapterCall(env: Env, r: Request, dir: string, c: AdapterCall) {
    && r.bankSe == "BANK001"
    && (c.adapter == NhCorp <==> r.accountSe == "01")
    && c.driverPath == ChromeDriverPath
    && c.account == Digits(r.account)
    && Some(c.password) == env.decrypt(r.accountPw)
    && SecondaryArgument(env, r, c.secondary)
    && ParseIsoDate(r.schBgnde).Success? && c.start == Midnight(ParseIsoDate(r.schBgnde).value)
    && ParseIsoDate(r.schEndde).Success? && c.end == Midnight(ParseIsoDate(r.schEndde).value)
    && c.downloadDir == dir
  }

  predicate AdapterCallsProper(env: Env, r: Request, dir: string, es: seq<Effect>) {
    forall i :: 0 <= i < |es| ==> es[i].Retrieve? ==> ProperAdapterCall(env, r, dir, es[i].call)
  }

  lemma BirthdateValue(env: Env, value: Option<string>)
    requires Birthdate(env, value).outcome.Success?
    ensures BirthdayValue(env, value, Birthdate(env, value).outcome.value)
  {
    hide FormatBirthdate, IsHex;
  }

  /** What a successful preparation holds: both dates parsed, at midnight, and the birthday handed on. */
  lemma PreparedValues(env: Env, r: Request)
    requires Prepare(env, r).outcome.Success?
    ensures ParseIsoDate(r.schBgnde).Success? && Prepare(env, r).outcome.value.start == Midnight(ParseIsoDate(r.schBgnde).value)
    ensures ParseIsoDate(r.schEndde).Success? && Prepare(env, r).outcome.value.end == Midnight(ParseIsoDate(r.schEndde).value)
    ensures BirthdayValue(env, r.rprsntvBrthdy, Prepare(env, r).outcome.value.birthday)
  {
    hide ParseIsoDate, FormatBirthdate, IsHex, Digits, Birthdate, BirthdayValue;
    BirthdateValue(env, r.rprsntvBrthdy);
  }

  /** A corporate account's call gets the corporate adapter and the business number. */
  lemma DispatchCallCorp(env: Env, r: Request, p: Prepared, dir: string)
    requires r.bankSe == "BANK001" && r.accountSe == "01"
    ensures Dispatch(env, r, p, dir).effects ==
      [Retrieve(AdapterCall(NhCorp, ChromeDriverPath, p.account, p.password, r.bizrno, p.start, p.end, dir))]
  {
    hide Lookup;
    assert Lookup(r.bankSe, r.accountSe) == Success(NhCorp);
  }

  /** Any other account's call gets the personal adapter and the prepared birthday. */
  lemma DispatchCallPersonal(env: Env, r: Request, p: Prepared, dir: string)
    requires r.bankSe == "BANK001" && r.accountSe != "01"
    ensures Dispatch(env, r, p, dir).effects ==
      [Retrieve(AdapterCall(NhPersonal, ChromeDriverPath, p.account, p.password, p.birthday, p.start, p.end, dir))]
  {
    hide Lookup;
    assert Lookup(r.bankSe, r.accountSe) == Success(NhPersonal);
  }

  lemma TryTraceAdapterCalls(env: Env, r: Request, dir: string)
    ensures AdapterCallsProper(env, r, dir, TryTrace(env, r, dir).effects)
  {
    hide Prepare, Dispatch, Deliver;
    var t := TryTrace(env, r, dir);
    var p := Prepare(env, r);
    if p.outcome.Success? {
      var d := Dispatch(env, r, p.outcome.value, dir);
      var rest := if d.outcome.Success? then Deliver(env, r, d.outcome.value).effects else [];
      assert t.effects == p.effects + d.effects + rest;
      forall i | 0 <= i < |t.effects|
        ensures t.effects[i].Retrieve? ==> ProperAdapterCall(env, r, dir, t.effects[i].call)
      {
        if i < |p.effects| {
          assert t.effects[i] == p.effects[i];
        } else if i < |p.effects| + |d.effects| {
          assert t.effects[i] == d.effects[i - |p.effects|];
          if r.bankSe == "BANK001" {
            PreparedValues(env, r);
            if r.accountSe == "01" {
              DispatchCallCorp(env, r, p.outcome.value, dir);
            } else {
              DispatchCallPersonal(env, r, p.outcome.value, dir);
            }
          }
        } else {
          assert t.effects[i] == rest[i - |p.effects| - |d.effects|];
        }
      }
    }
  }

  /**
   * Every adapter call a request makes gets the arguments main.py:199-207 pass: see
   * `ProperAdapterCall`.
   */
  lemma AdapterReceivesProperArguments(env: Env, r: Request, timestamp: string)
    ensures AdapterCallsProper(env, r, DirOf(r, timestamp), Process(env, r, timestamp).effects)
  {
    hide TryTrace, Process, ProperAdapterCall;
    var a := Process(env, r, timestamp);
    var dir := DirOf(r, timestamp);
    ProcessShape(env, r, timestamp);
    if env.setup(dir).None? {
      ProcessAfterSetup(env, r, timestamp);
      var t := TryTrace(env, r, dir);
      TryTraceAdapterCalls(env, r, dir);
      forall i | 0 <= i < |a.effects|
        ensures a.effects[i].Retrieve? ==> ProperAdapterCall(env, r, dir, a.effects[i].call)
      {
        if 1 <= i <= |t.effects| {
          assert a.effects[i] == t.effects[i - 1];
        }
      }
    }
  }

  /** The exception a bank other than BANK001 ends the `try` block with. */
  function UnsupportedBankError(bankSe: string): PyException {
    if bankSe == "BANK011" then KeyError("BANK011") else UnboundLocal("original_excel")
  }

  lemma DispatchUnsupported(env: Env, r: Request, p: Prepared, dir: string)
    requires r.bankSe != "BANK001"
    ensures Dispatch(env, r, p, dir) == Step([], Failure(UnsupportedBankError(r.bankSe)))
  {
    hide Lookup, UnboundLocal, KeyError;
  }

  /** No adapter call and no upload. */
  predicate NoBankTraffic(es: seq<Effect>) {
    forall i :: 0 <= i < |es| ==> !es[i].Retrieve? && !es[i].Upload?
  }

  /** No 'S' write, for any row. */
  predicate NeverSucceeds(es: seq<Effect>) {
    forall i :: 0 <= i < |es| ==> !(es[i].UpdateStatus? && es[i].status == Succeeded)
  }

  /**
   * For a bank other than BANK001 the `try` block only decrypts, and always fails: with the
   * preparation's exception, or else with KeyError for BANK011 (listed in the dispatch test
   * but missing from `bank_functions`) and UnboundLocalError for any other bank (the adapter
   * call is skipped, so `original_excel` is never assigned).
   */
  lemma TryTraceUnsupportedBank(env: Env, r: Request, dir: string)
    requires r.bankSe != "BANK001"
    ensures TryTrace(env, r, dir).effects == Prepare(env, r).effects
    ensures TryTrace(env, r, dir).outcome.Failure?
    ensures Prepare(env, r).outcome.Success? ==> TryTrace(env, r, dir).outcome.error == UnsupportedBankError(r.bankSe)
  {
    hide Prepare, Dispatch, Deliver, UnsupportedBankError;
    var p := Prepare(env, r);
    if p.outcome.Success? {
      DispatchUnsupported(env, r, p.outcome.value, dir);
      assert p.effects + [] == p.effects;
    }
  }

  /**
   * A request for any bank but BANK001 never reaches a bank or the SFTP server, is never
   * marked 'S', and, when its inputs were read, ends in 'E' with the message of the
   * exception above.
   */
  lemma UnsupportedBankFails(env: Env, r: Request, timestamp: string)
    requires r.bankSe != "BANK001"
    ensures NoBankTraffic(Process(env, r, timestamp).effects)
    ensures NeverSucceeds(Process(env, r, timestamp).effects)
    ensures env.setup(DirOf(r, timestamp)).None? && Prepare(env, r).outcome.Success? ==>
      EndsInFailure(r.reqSeq, Process(env, r, timestamp).effects, UnsupportedBankError(r.bankSe))
  {
    hide TryTrace, Process, Prepare, UnsupportedBankError;
    var a := Process(env, r, timestamp);
    var dir := DirOf(r, timestamp);
    ProcessShape(env, r, timestamp);
    if env.setup(dir).None? {
      ProcessAfterSetup(env, r, timestamp);
      TryTraceUnsupportedBank(env, r, dir);
      var p := Prepare(env, r);
      assert a.effects == [a.effects[0]] + p.effects + [Last(a.effects)];
      forall i | 0 <= i < |a.effects|
        ensures !a.effects[i].Retrieve? && !a.effects[i].Upload? && !(a.effects[i].UpdateStatus? && a.effects[i].status == Succeeded)
      {
        if 1 <= i <= |p.effects| {
          assert a.effects[i] == p.effects[i - 1];
        }
      }
    }
  }

  /** The message the 'E' write then carries for BANK011. */
  lemma UnsupportedBankKeyErrorMessage()
    ensures CoreErrorMessage(UnsupportedBankError("BANK011")) == "KeyError: 'BANK011'"
  {
  }

  /**
   * A plaintext birthdate in the `YYMMDD` form (any non-empty digit string, such as
   * "601030") passes is_hex, so it is sent to decryption as the third effect; when that
   * decryption fails, the request ends in 'E' for RPRSNTV_BRTHDY.
   */
  lemma PlaintextBirthdateIsDecrypted(env: Env, r: Request, timestamp: string)
    requires env.setup(DirOf(r, timestamp)).None? && DatesParse(r)
    requires Truthy(env.decrypt(r.accountPw))
    requires r.rprsntvBrthdy.Some? && |r.rprsntvBrthdy.value| > 0 && AllDigits(r.rprsntvBrthdy.value)
    ensures |Process(env, r, timestamp).effects| > 2
    ensures Process(env, r, timestamp).effects[2] == Decrypt(RprsntvBrthdy, r.rprsntvBrthdy.value)
    ensures !Truthy(env.decrypt(r.rprsntvBrthdy.value)) ==>
      EndsInFailure(r.reqSeq, Process(env, r, timestamp).effects, DecryptionFailed(RprsntvBrthdy))
  {
    hide ParseIsoDate, FormatBirthdate, IsHex, Digits, Dispatch, Deliver, Process, AllDigits;
    DigitStringIsHex(r.rprsntvBrthdy.value);
    ProcessAfterSetup(env, r, timestamp);
    ProcessShape(env, r, timestamp);
  }

  /**
   * With a real AES-128-ECB key, only the hex text of whole 16-byte blocks (a positive
   * multiple of 32 hex characters) can decrypt: `unhexlify` of a shorter digit string gives
   * fewer than 16 bytes, which the ECB decryptor rejects. A plaintext birthdate of fewer than
   * 32 digits, `YYMMDD` among them, then always fails the request with the birthdate message.
   */
  lemma PlaintextBirthdateAlwaysFails(env: Env, r: Request, timestamp: string)
    requires forall s :: env.decrypt(s).Some? ==> 32 <= |s| && |s| % 32 == 0
    requires env.setup(DirOf(r, timestamp)).None? && DatesParse(r)
    requires Truthy(env.decrypt(r.accountPw))
    requires r.rprsntvBrthdy.Some? && 0 < |r.rprsntvBrthdy.value| < 32 && AllDigits(r.rprsntvBrthdy.value)
    ensures EndsInFailure(r.reqSeq, Process(env, r, timestamp).effects, DecryptionFailed(RprsntvBrthdy))
  {
    assert env.decrypt(r.rprsntvBrthdy.value).None?;
    PlaintextBirthdateIsDecrypted(env, r, timestamp);
  }

  /** The status row `q` has after the writes `es`: the last one written for it, if any. */
  function StatusOf(es: seq<Effect>, q: string): Option<Status> {
    if es == [] then None
    else if Last(es).UpdateStatus? && Last(es).reqSeq == q then Some(Last(es).status)
    else StatusOf(es[..|es| - 1], q)
  }

  lemma {:induction false} StatusOfAppend(a: seq<Effect>, b: seq<Effect>, q: string)
    ensures StatusOf(a + b, q) == if StatusOf(b, q).Some? then StatusOf(b, q) else StatusOf(a, q)
  {
    if b == [] {
      assert a + b == a;
    } else {
      assert (a + b)[..|a + b| - 1] == a + b[..|b| - 1];
      StatusOfAppend(a, b[..|b| - 1], q);
    }
  }

  lemma {:induction false} StatusOfNoWrite(es: seq<Effect>, q: string)
    requires forall i :: 0 <= i < |es| && es[i].UpdateStatus? ==> es[i].reqSeq != q
    ensures StatusOf(es, q) == None
  {
    if es != [] {
      StatusOfNoWrite(es[..|es| - 1], q);
    }
  }

  /** A row whose status is terminal: 'S' or 'E'. */
  predicate Settled(es: seq<Effect>, q: string) {
    StatusOf(es, q).Some? && StatusOf(es, q).value != InProgress
  }

  /**
   * After one request its own row is settled, or is left at 'P' when an exception escaped,
   * and no other row's status is touched.
   */
  lemma ProcessStatus(env: Env, r: Request, timestamp: string)
    ensures Process(env, r, timestamp).escaped.None? ==> Settled(Process(env, r, timestamp).effects, r.reqSeq)
    ensures Process(env, r, timestamp).escaped.Some? ==> StatusOf(Process(env, r, timestamp).effects, r.reqSeq) == Some(InProgress)
    ensures forall q :: q != r.reqSeq ==> StatusOf(Process(env, r, timestamp).effects, q) == None
  {
    hide Process;
    var a := Process(env, r, timestamp);
    ProcessShape(env, r, timestamp);
    forall q | q != r.reqSeq
      ensures StatusOf(a.effects, q) == None
    {
      forall i | 0 <= i < |a.effects|
        ensures a.effects[i].UpdateStatus? ==> a.effects[i].reqSeq != q
      {
        if 0 < i < |a.effects| - 1 {
          assert a.effects[i] == a.effects[1..][i - 1];
        }
      }
      StatusOfNoWrite(a.effects, q);
    }
    if a.escaped.Some? {
      assert a.effects[..0] == [];
    }
  }

  function ReqSeqs(rows: seq<Request>): set<string> {
    set i | 0 <= i < |rows| :: rows[i].reqSeq
  }

  predicate DistinctReqSeqs(rows: seq<Request>) {
    forall i, j :: 0 <= i < j < |rows| ==> rows[i].reqSeq != rows[j].reqSeq
  }

  /**
   * What `polls` rounds of the loop leave, with `n` the number of rows taken: the rows are
   * taken in order from the front; without an escape `n` is the smaller of the number of
   * polls and of pending rows; every row taken is settled except that the one an exception
   * escaped from stays at 'P'; rows not taken, and rows never pending, are never written.
   */
  ghost predicate RunOutcome(pending: seq<Request>, polls: nat, rr: RunResult) {
    var n := |pending| - |rr.pending|;
    && 0 <= n
    && rr.pending == pending[n..]
    && (rr.escaped.None? ==> n == if polls < |pending| then polls else |pending|)
    && (rr.escaped.Some? ==> 1 <= n <= polls && StatusOf(rr.effects, pending[n - 1].reqSeq) == Some(InProgress))
    && (forall i :: 0 <= i < n && !(rr.escaped.Some? && i == n - 1) ==> Settled(rr.effects, pending[i].reqSeq))
    && (forall i :: n <= i < |pending| ==> StatusOf(rr.effects, pending[i].reqSeq) == None)
    && (forall q :: q !in ReqSeqs(pending) ==> StatusOf(rr.effects, q) == None)
  }

  /** One request done without an escape, then the rest of the run. */
  lemma ReqSeqsCons(rows: seq<Request>)
    requires rows != []
    ensures ReqSeqs(rows) == {rows[0].reqSeq} + ReqSeqs(rows[1..])
  {
    var tail := rows[1..];
    forall q | q in ReqSeqs(tail)
      ensures q in ReqSeqs(rows)
    {
      var j :| 0 <= j < |tail| && tail[j].reqSeq == q;
      assert rows[j + 1] == tail[j];
    }
    forall q | q in ReqSeqs(rows)
      ensures q == rows[0].reqSeq || q in ReqSeqs(tail)
    {
      var j :| 0 <= j < |rows| && rows[j].reqSeq == q;
      if j > 0 {
        assert rows[j] == tail[j - 1];
      }
    }
  }

  lemma RunOutcomeStep(pending: seq<Request>, polls: nat, a: seq<Effect>, rest: RunResult)
    requires pending != [] && polls > 0 && DistinctReqSeqs(pending)
    requires Settled(a, pending[0].reqSeq)
    requires forall q :: q != pending[0].reqSeq ==> StatusOf(a, q) == None
    requires RunOutcome(pending[1..], polls - 1, rest)
    ensures RunOutcome(pending, polls, RunResult(a + rest.effects, rest.pending, rest.escaped))
  {
    hide StatusOf;
    var rr := RunResult(a + rest.effects, rest.pending, rest.escaped);
    var n := |pending| - |rr.pending|;
    var tail := pending[1..];
    assert pending[0].reqSeq !in ReqSeqs(tail);
    assert pending[n..] == tail[n - 1..];
    forall q
      ensures StatusOf(rr.effects, q) == if StatusOf(rest.effects, q).Some? then StatusOf(rest.effects, q) else StatusOf(a, q)
    {
      StatusOfAppend(a, rest.effects, q);
    }
    forall i | 0 <= i < n && !(rr.escaped.Some? && i == n - 1)
      ensures Settled(rr.effects, pending[i].reqSeq)
    {
      if i > 0 {
        assert pending[i] == tail[i - 1];
      }
    }
    forall i | n <= i < |pending|
      ensures StatusOf(rr.effects, pending[i].reqSeq) == None
    {
      assert pending[i] == tail[i - 1];
    }
    ReqSeqsCons(pending);
    if rr.escaped.Some? {
      assert pending[n - 1] == tail[n - 2];
    }
  }

  lemma RunOutcomeNoPolls(pending: seq<Request>)
    ensures RunOutcome(pending, 0, RunResult([], pending, None))
  {
    assert pending[0..] == pending;
  }

  /** With nothing pending, a poll more or less changes nothing. */
  lemma RunOutcomeIdle(polls: nat, rr: RunResult)
    requires polls > 0
    requires RunOutcome([], polls - 1, rr)
    ensures RunOutcome([], polls, rr)
  {
  }

  /** The first row's exception escaped: the run stops there with that row left at 'P'. */
  lemma RunOutcomeEscape(pending: seq<Request>, polls: nat, a: seq<Effect>, e: PyException)
    requires pending != [] && polls > 0 && DistinctReqSeqs(pending)
    requires StatusOf(a, pending[0].reqSeq) == Some(InProgress)
    requires forall q :: q != pending[0].reqSeq ==> StatusOf(a, q) == None
    ensures RunOutcome(pending, polls, RunResult(a, pending[1..], Some(e)))
  {
    forall i | 1 <= i < |pending|
      ensures StatusOf(a, pending[i].reqSeq) == None
    {
      assert pending[i].reqSeq != pending[0].reqSeq;
    }
    forall q | q !in ReqSeqs(pending)
      ensures StatusOf(a, q) == None
    {
      assert pending[0].reqSeq in ReqSeqs(pending);
    }
  }

  /**
   * The polling loop over rows with distinct REQ_SEQ keys: see `RunOutcome`. In
   * particular, no row is ever left at 'P' unless an exception escaped while processing
   * it, which ends the program.
   */
  lemma {:induction false} RunLedger(env: Env, pending: seq<Request>, k: nat, polls: nat)
    requires DistinctReqSeqs(pending)
    ensures RunOutcome(pending, polls, Run(env, pending, k, polls))
    decreases polls
  {
    hide Process, RunOutcome, StatusOf;
    if polls == 0 {
      RunOutcomeNoPolls(pending);
    } else if pending == [] {
      RunLedger(env, pending, k + 1, polls - 1);
      RunOutcomeIdle(polls, Run(env, pending, k + 1, polls - 1));
    } else {
      var a := Process(env, pending[0], env.clock(k));
      ProcessStatus(env, pending[0], env.clock(k));
      if a.escaped.Some? {
        RunOutcomeEscape(pending, polls, a.effects, a.escaped.value);
      } else {
        var rest := Run(env, pending[1..], k + 1, polls - 1);
        RunLedger(env, pending[1..], k + 1, polls - 1);
        RunOutcomeStep(pending, polls, a.effects, rest);
      }
    }
  }
}
