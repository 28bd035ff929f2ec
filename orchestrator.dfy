/**
 * The request worker of main.py: `execute_request` takes one pending ledger row to a
 * terminal status, and `main` polls for rows forever.
 *
 * What the worker does to the outside world is recorded as a trace of `Effect`s: ledger
 * status writes, decryptions, the call into the bank adapter, and SFTP uploads. The parts of
 * the world it cannot see (AES, Chrome, the adapter, SFTP, the clock) are the total functions
 * of an `Env`. `Process` and `Run` are the specification functions of one request and of the
 * polling loop; the `Worker` class carries out the same steps one statement at a time and is
 * proved to produce exactly their traces.
 */
module Orchestrator {
  import opened Wrappers
  import opened Errors
  import opened Text
  import opened Calendar
  import opened Helpers

  /** A row of the request ledger as `fetch_pending_requests` returns it. */
  datatype Request = Request(
    bankSe: string,
    accountSe: string,
    reqSeq: string,
    iniHptlNo: string,
    schBgnde: string,
    schEndde: string,
    account: string,
    accountPw: string,
    rprsntvBrthdy: Option<string>,
    accountPw2: Option<string>,
    bizrno: Option<string>)

  /** The ledger statuses 'P', 'S' and 'E'. */
  datatype Status = InProgress | Succeeded | Failed

  /** The three encrypted columns. */
  datatype Field = AccountPw | RprsntvBrthdy | AccountPw2

  function FieldName(f: Field): string {
    match f
    case AccountPw => "ACCOUNT_PW"
    case RprsntvBrthdy => "RPRSNTV_BRTHDY"
    case AccountPw2 => "ACCOUNT_PW2"
  }

  /** The two adapters of `bank_functions`: NongHyup personal and corporate banking. */
  datatype Adapter = NhPersonal | NhCorp

  /** The arguments of one adapter call (main.py:199-207). */
  datatype AdapterCall = AdapterCall(
    adapter: Adapter,
    driverPath: string,
    account: string,
    password: string,
    secondary: Option<string>,
    start: Moment,
    end: Moment,
    downloadDir: string)

  /** What the worker does that the outside world can observe. */
  datatype Effect =
    | UpdateStatus(reqSeq: string, status: Status, errMsg: Option<string>, excelFile: Option<string>, excelApiFile: Option<string>)
    | Decrypt(field: Field, ciphertext: string)
    | Retrieve(call: AdapterCall)
    | Upload(localPath: string, remotePath: string)

  /**
   * The collaborators the worker cannot see into:
   * - `decrypt`: `decrypt_aes128`, None when AES or the padding fails;
   * - `setup`: the exception, if any, of launching Chrome and creating the download
   *   directory (main.py:159-163), by download directory;
   * - `clock`: `datetime.now().strftime('%Y%m%d%H%M%S')` at the k-th poll;
   * - `retrieve`: the bank adapter, giving the raw and the upload-ready statement files;
   * - `upload`: `upload_file_sftp`, the exception it raises if any;
   * - the two remote paths the uploads go to, which main.py uses without defining.
   */
  datatype Env = Env(
    decrypt: string -> Option<string>,
    setup: string -> Option<PyException>,
    clock: nat -> string,
    retrieve: AdapterCall -> Result<(string, string), PyException>,
    upload: (string, string) -> Option<PyException>,
    apiRemotePath: string,
    uploadRemotePath: string)

  const ChromeDriverPath: string := "C:\\chromedriver-win64\\chromedriver.exe"
  const BaseDownloadDir: string := "C:\\BankLedgers"

  /** `os.path.join(BASE_DOWNLOAD_DIR, f"{ini_hptl_no}_{req_seq}_{timestamp}")` on Windows. */
  function DownloadDir(iniHptlNo: string, reqSeq: string, timestamp: string): (dir: string)
    ensures |BaseDownloadDir| + 1 <= |dir| && dir[..|BaseDownloadDir| + 1] == BaseDownloadDir + "\\"
    ensures |timestamp| <= |dir| && dir[|dir| - |timestamp|..] == timestamp
  {
    BaseDownloadDir + "\\" + iniHptlNo + "_" + reqSeq + "_" + timestamp
  }

  /** Without a backslash in its parts, the download directory sits directly under the base. */
  lemma DownloadDirDirectlyUnderBase(iniHptlNo: string, reqSeq: string, timestamp: string)
    requires '\\' !in iniHptlNo + reqSeq + timestamp
    ensures '\\' !in DownloadDir(iniHptlNo, reqSeq, timestamp)[|BaseDownloadDir| + 1..]
  {
    var dir := DownloadDir(iniHptlNo, reqSeq, timestamp);
    assert dir[|BaseDownloadDir| + 1..] == iniHptlNo + "_" + reqSeq + "_" + timestamp;
    assert forall c :: c in iniHptlNo + "_" + reqSeq + "_" + timestamp ==> c in iniHptlNo + reqSeq + timestamp || c == '_';
  }

  function DecryptionFailed(f: Field): PyException {
    ValueError(FieldName(f) + " 복호화 실패")
  }

  function KeyError(key: string): PyException {
    PyException("KeyError", "'" + key + "'")
  }

  /** What reading the local variable `name` raises when nothing was assigned to it. */
  function UnboundLocal(name: string): PyException {
    PyException("UnboundLocalError", "cannot access local variable '" + name + "' where it is not associated with a value")
  }

  /** `bank_functions`, holding the one row main.py:84 shows. */
  function BankFunctions(): map<string, map<string, Adapter>> {
    map["BANK001" := map["personal" := NhPersonal, "corp" := NhCorp]]
  }

  /**
   * `bank_functions[bank_code]['corp' if account_type == '01' else 'personal']`: only
   * BANK001 has a row, so any other code raises KeyError naming it; within the row,
   * account type '01' picks the corporate adapter and anything else the personal one.
   */
  function Lookup(bankCode: string, accountType: string): (r: Result<Adapter, PyException>)
    ensures r.Success? <==> bankCode == "BANK001"
    ensures r.Success? ==> (r.value == NhCorp <==> accountType == "01")
    ensures r.Failure? ==> r.error == KeyError(bankCode)
  {
    var table := BankFunctions();
    if bankCode !in table then Failure(KeyError(bankCode))
    else
      var key := if accountType == "01" then "corp" else "personal";
      if key !in table[bankCode] then Failure(KeyError(key))
      else Success(table[bankCode][key])
  }

  /** The effects of one stage of the `try` block and the value or exception it ends with. */
  datatype Step<T> = Step(effects: seq<Effect>, outcome: Result<T, PyException>)

  function Raised<T>(s: Step<T>): Option<PyException> {
    if s.outcome.Failure? then Some(s.outcome.error) else None
  }

  predicate OnlyDecrypts(es: seq<Effect>) {
    forall i :: 0 <= i < |es| ==> es[i].Decrypt?
  }

  /** main.py:172-174: the account password is always decrypted, and must decrypt to a non-empty text. */
  function AccountPassword(env: Env, ciphertext: string): (s: Step<string>)
    ensures s.effects == [Decrypt(AccountPw, ciphertext)]
    ensures s.outcome.Success? <==> Truthy(env.decrypt(ciphertext))
    ensures s.outcome.Success? ==> Some(s.outcome.value) == env.decrypt(ciphertext)
    ensures s.outcome.Failure? ==> s.outcome.error == DecryptionFailed(AccountPw)
  {
    var plain := env.decrypt(ciphertext);
    Step([Decrypt(AccountPw, ciphertext)], if Truthy(plain) then Success(plain.value) else Failure(DecryptionFailed(AccountPw)))
  }

  /**
   * main.py:177-181 and 185-188: a non-empty value that passes `is_hex` is decrypted, and
   * must decrypt to a non-empty text; any other value is kept as it is.
   */
  function RevealIfHex(env: Env, f: Field, value: Option<string>): (s: Step<Option<string>>)
    ensures Truthy(value) && IsHex(value.value) ==>
      && s.effects == [Decrypt(f, value.value)]
      && (s.outcome.Success? <==> Truthy(env.decrypt(value.value)))
      && (s.outcome.Success? ==> s.outcome.value == env.decrypt(value.value))
      && (s.outcome.Failure? ==> s.outcome.error == DecryptionFailed(f))
    ensures !(Truthy(value) && IsHex(value.value)) ==> s == Step([], Success(value))
  {
    if Truthy(value) && IsHex(value.value) then
      var plain := env.decrypt(value.value);
      Step([Decrypt(f, value.value)], if Truthy(plain) then Success(plain) else Failure(DecryptionFailed(f)))
    else Step([], Success(value))
  }

  /** main.py:176-182: the birthdate, decrypted when it looks hex, then reformatted when non-empty. */
  function Birthdate(env: Env, value: Option<string>): (s: Step<Option<string>>)
    ensures s.effects == RevealIfHex(env, RprsntvBrthdy, value).effects
    ensures s.outcome.Failure? <==> RevealIfHex(env, RprsntvBrthdy, value).outcome.Failure?
    ensures s.outcome.Success? && Truthy(value) ==> s.outcome.value.Some?
    ensures s.outcome.Success? && !Truthy(value) ==> s.outcome.value == value
  {
    var revealed := RevealIfHex(env, RprsntvBrthdy, value);
    if revealed.outcome.Success? && Truthy(value) then
      Step(revealed.effects, Success(Some(FormatBirthdate(revealed.outcome.value.value))))
    else revealed
  }

  /** The request's inputs once read, parsed and decrypted (main.py:166-190). */
  datatype Prepared = Prepared(
    start: Moment,
    end: Moment,
    password: string,
    birthday: Option<string>,
    secondPassword: Option<string>,
    account: string)

  /** main.py:166-190: parse the two dates, decrypt the credentials, keep the account's digits. */
  function Prepare(env: Env, r: Request): (s: Step<Prepared>)
    ensures OnlyDecrypts(s.effects)
    ensures s.outcome.Success? ==> s.outcome.value.account == Digits(r.account)
    ensures s.outcome.Success? ==> Some(s.outcome.value.password) == env.decrypt(r.accountPw)
  {
    match ParseIsoDate(r.schBgnde)
    case Failure(e) => Step([], Failure(e))
    case Success(startDate) =>
      match ParseIsoDate(r.schEndde)
      case Failure(e) => Step([], Failure(e))
      case Success(endDate) =>
        var pw := AccountPassword(env, r.accountPw);
        if pw.outcome.Failure? then Step(pw.effects, Failure(pw.outcome.error))
        else
          var bd := Birthdate(env, r.rprsntvBrthdy);
          if bd.outcome.Failure? then Step(pw.effects + bd.effects, Failure(bd.outcome.error))
          else
            var pw2 := RevealIfHex(env, AccountPw2, r.accountPw2);
            var effects := pw.effects + bd.effects + pw2.effects;
            if pw2.outcome.Failure? then Step(effects, Failure(pw2.outcome.error))
            else
              Step(effects, Success(Prepared(Midnight(startDate), Midnight(endDate), pw.outcome.value,
                                             bd.outcome.value, pw2.outcome.value, Digits(r.account))))
  }

  /**
   * main.py:197-212: BANK001 and BANK011 look their adapter up and call it; any other bank
   * skips the call, and reading the unassigned file name then raises.
   */
  function Dispatch(env: Env, r: Request, p: Prepared, downloadDir: string): (s: Step<(string, string)>)
    ensures r.bankSe == "BANK001" ==> |s.effects| == 1 && s.effects[0].Retrieve? && s.outcome == env.retrieve(s.effects[0].call)
    ensures r.bankSe != "BANK001" ==> s.effects == [] && s.outcome.Failure?
  {
    hide Lookup;
    if r.bankSe == "BANK001" || r.bankSe == "BANK011" then
      match Lookup(r.bankSe, r.accountSe)
      case Failure(e) => Step([], Failure(e))
      case Success(adapter) =>
        var call := AdapterCall(adapter, ChromeDriverPath, p.account, p.password,
                                if r.accountSe == "01" then r.bizrno else p.birthday,
                                p.start, p.end, downloadDir);
        Step([Retrieve(call)], env.retrieve(call))
    else Step([], Failure(UnboundLocal("original_excel")))
  }

  /** main.py:220-228: upload both files, then record 'S' with both remote paths. */
  function Deliver(env: Env, r: Request, files: (string, string)): (s: Step<()>)
    ensures 1 <= |s.effects| <= 3
    ensures s.effects[0] == Upload(files.0, env.apiRemotePath)
    ensures |s.effects| >= 2 ==> s.effects[1] == Upload(files.1, env.uploadRemotePath)
    ensures s.outcome.Success? <==> env.upload(files.0, env.apiRemotePath).None? && env.upload(files.1, env.uploadRemotePath).None?
    ensures s.outcome.Success? <==> |s.effects| == 3
    ensures |s.effects| == 3 ==> s.effects[2] == UpdateStatus(r.reqSeq, Succeeded, None, Some(env.uploadRemotePath), Some(env.apiRemotePath))
  {
    var first := Upload(files.0, env.apiRemotePath);
    match env.upload(files.0, env.apiRemotePath)
    case Some(e) => Step([first], Failure(e))
    case None =>
      var second := Upload(files.1, env.uploadRemotePath);
      match env.upload(files.1, env.uploadRemotePath)
      case Some(e) => Step([first, second], Failure(e))
      case None => Step([first, second, UpdateStatus(r.reqSeq, Succeeded, None, Some(env.uploadRemotePath), Some(env.apiRemotePath))], Success(()))
  }

  /** The `try` block of execute_request (main.py:165-228). */
  function TryTrace(env: Env, r: Request, downloadDir: string): (t: Step<()>)
    ensures |Prepare(env, r).effects| <= |t.effects|
    ensures t.effects[..|Prepare(env, r).effects|] == Prepare(env, r).effects
  {
    hide Prepare, Dispatch, Deliver;
    var p := Prepare(env, r);
    if p.outcome.Failure? then Step(p.effects, Failure(p.outcome.error))
    else
      var d := Dispatch(env, r, p.outcome.value, downloadDir);
      if d.outcome.Failure? then Step(p.effects + d.effects, Failure(d.outcome.error))
      else
        var u := Deliver(env, r, d.outcome.value);
        Step(p.effects + d.effects + u.effects, u.outcome)
  }

  /** The trace of one execute_request, and the exception that escapes it, if any. */
  datatype Attempt = Attempt(effects: seq<Effect>, escaped: Option<PyException>)

  function Claim(reqSeq: string): Effect {
    UpdateStatus(reqSeq, InProgress, None, None, None)
  }

  function Fail(reqSeq: string, e: PyException): Effect {
    UpdateStatus(reqSeq, Failed, Some(CoreErrorMessage(e)), None, None)
  }

  /**
   * execute_request (main.py:151-236): claim the row with 'P'; a failure in the set-up
   * that follows escapes, since it is outside the `try`; otherwise run the `try` block and
   * turn whatever it raises into 'E' with the core message.
   */
  function Process(env: Env, r: Request, timestamp: string): (a: Attempt)
    ensures a.effects != [] && a.effects[0] == Claim(r.reqSeq)
    ensures a.escaped == env.setup(DownloadDir(r.iniHptlNo, r.reqSeq, timestamp))
  {
    match env.setup(DownloadDir(r.iniHptlNo, r.reqSeq, timestamp))
    case Some(e) => Attempt([Claim(r.reqSeq)], Some(e))
    case None =>
      var t := TryTrace(env, r, DownloadDir(r.iniHptlNo, r.reqSeq, timestamp));
      match t.outcome
      case Success(_) => Attempt([Claim(r.reqSeq)] + t.effects, None)
      case Failure(e) => Attempt([Claim(r.reqSeq)] + t.effects + [Fail(r.reqSeq, e)], None)
  }

  lemma ProcessAfterSetup(env: Env, r: Request, timestamp: string)
    requires env.setup(DownloadDir(r.iniHptlNo, r.reqSeq, timestamp)).None?
    ensures var t := TryTrace(env, r, DownloadDir(r.iniHptlNo, r.reqSeq, timestamp));
      Process(env, r, timestamp) == Attempt([Claim(r.reqSeq)] + t.effects + (if t.outcome.Failure? then [Fail(r.reqSeq, t.outcome.error)] else []), None)
  {
    hide TryTrace;
    var t := TryTrace(env, r, DownloadDir(r.iniHptlNo, r.reqSeq, timestamp));
    assert [Claim(r.reqSeq)] + t.effects + [] == [Claim(r.reqSeq)] + t.effects;
  }

  lemma AppendAssoc(a: seq<Effect>, b: seq<Effect>, c: seq<Effect>, d: seq<Effect>)
    ensures a + b + c + d == a + (b + c + d)
  {
  }

  /** The trace of `polls` rounds of the polling loop from poll number `k`, and what is left pending. */
  datatype RunResult = RunResult(effects: seq<Effect>, pending: seq<Request>, escaped: Option<PyException>)

  /**
   * main (main.py:238-245): each poll takes the next pending request, if there is one, and
   * processes it. An exception escaping execute_request ends the loop, and the program.
   */
  function Run(env: Env, pending: seq<Request>, k: nat, polls: nat): (rr: RunResult)
    ensures |rr.pending| <= |pending|
    ensures rr.escaped.None? && polls >= |pending| ==> rr.pending == []
    decreases polls
  {
    hide Process;
    if polls == 0 then RunResult([], pending, None)
    else if pending == [] then Run(env, pending, k + 1, polls - 1)
    else
      var a := Process(env, pending[0], env.clock(k));
      if a.escaped.Some? then RunResult(a.effects, pending[1..], a.escaped)
      else
        var rest := Run(env, pending[1..], k + 1, polls - 1);
        RunResult(a.effects + rest.effects, rest.pending, rest.escaped)
  }

  /** The worker process: the trace so far, and the rows still pending in the ledger. */
  class Worker {
    var effects: seq<Effect>
    var pending: seq<Request>

    constructor(rows: seq<Request>)
      ensures effects == [] && pending == rows
    {
      effects := [];
      pending := rows;
    }

    /** update_request_status */
    method UpdateRequestStatus(reqSeq: string, status: Status, errMsg: Option<string>, excelFile: Option<string>, excelApiFile: Option<string>)
      modifies this
      ensures effects == old(effects) + [UpdateStatus(reqSeq, status, errMsg, excelFile, excelApiFile)]
      ensures pending == old(pending)
    {
      effects := effects + [UpdateStatus(reqSeq, status, errMsg, excelFile, excelApiFile)];
    }

    /** decrypt_aes128 */
    method DecryptAes128(env: Env, f: Field, encryptedHex: string) returns (plaintext: Option<string>)
      modifies this
      ensures plaintext == env.decrypt(encryptedHex)
      ensures effects == old(effects) + [Decrypt(f, encryptedHex)]
      ensures pending == old(pending)
    {
      effects := effects + [Decrypt(f, encryptedHex)];
      plaintext := env.decrypt(encryptedHex);
    }

    /** The adapter call `func(...)` of main.py:199-207. */
    method CallAdapter(env: Env, call: AdapterCall) returns (files: Result<(string, string), PyException>)
      modifies this
      ensures files == env.retrieve(call)
      ensures effects == old(effects) + [Retrieve(call)]
      ensures pending == old(pending)
    {
      effects := effects + [Retrieve(call)];
      files := env.retrieve(call);
    }

    /** upload_file_sftp */
    method UploadFileSftp(env: Env, localPath: string, remotePath: string) returns (raised: Option<PyException>)
      modifies this
      ensures raised == env.upload(localPath, remotePath)
      ensures effects == old(effects) + [Upload(localPath, remotePath)]
      ensures pending == old(pending)
    {
      effects := effects + [Upload(localPath, remotePath)];
      raised := env.upload(localPath, remotePath);
    }

    /** fetch_pending_requests: the next pending row, removed from the pending rows, or None. */
    method FetchPendingRequest() returns (request: Option<Request>)
      modifies this
      ensures old(pending) == [] ==> request == None && pending == []
      ensures old(pending) != [] ==> request == Some(old(pending)[0]) && pending == old(pending)[1..]
      ensures effects == old(effects)
    {
      if pending == [] {
        request := None;
      } else {
        request := Some(pending[0]);
        pending := pending[1..];
      }
    }

    /** main.py:166-190: the dates, the three credentials and the account number, statement by statement. */
    method PrepareInputs(env: Env, r: Request) returns (prepared: Result<Prepared, PyException>)
      modifies this
      ensures effects == old(effects) + Prepare(env, r).effects
      ensures prepared == Prepare(env, r).outcome
      ensures pending == old(pending)
    {
      hide ParseIsoDate, FormatBirthdate, IsHex, Digits;
      var startDateStr, endDateStr := r.schBgnde, r.schEndde;
      var startDate := ParseIsoDate(startDateStr);
      if startDate.Failure? {
        return Failure(startDate.error);
      }
      var endDate := ParseIsoDate(endDateStr);
      if endDate.Failure? {
        return Failure(endDate.error);
      }

      var accountPwPlain := DecryptAes128(env, AccountPw, r.accountPw);
      if !Truthy(accountPwPlain) {
        return Failure(DecryptionFailed(AccountPw));
      }
      ghost var afterPw := effects;

      var rprsntvBrthdyPlain := r.rprsntvBrthdy;
      if Truthy(rprsntvBrthdyPlain) {
        if IsHex(rprsntvBrthdyPlain.value) {
          rprsntvBrthdyPlain := DecryptAes128(env, RprsntvBrthdy, rprsntvBrthdyPlain.value);
          if !Truthy(rprsntvBrthdyPlain) {
            AppendAssoc(old(effects), [Decrypt(AccountPw, r.accountPw)], [Decrypt(RprsntvBrthdy, r.rprsntvBrthdy.value)], []);
            return Failure(DecryptionFailed(RprsntvBrthdy));
          }
        }
        rprsntvBrthdyPlain := Some(FormatBirthdate(rprsntvBrthdyPlain.value));
      }
      ghost var bd := Birthdate(env, r.rprsntvBrthdy);
      assert effects == afterPw + bd.effects;

      var accountPw2Plain := r.accountPw2;
      if Truthy(accountPw2Plain) && IsHex(accountPw2Plain.value) {
        accountPw2Plain := DecryptAes128(env, AccountPw2, accountPw2Plain.value);
      }
      ghost var pw2 := RevealIfHex(env, AccountPw2, r.accountPw2);
      assert effects == afterPw + bd.effects + pw2.effects;
      AppendAssoc(old(effects), [Decrypt(AccountPw, r.accountPw)], bd.effects, pw2.effects);
      if Truthy(r.accountPw2) && IsHex(r.accountPw2.value) && !Truthy(accountPw2Plain) {
        return Failure(DecryptionFailed(AccountPw2));
      }

      var accountNumber := Digits(r.account);
      prepared := Success(Prepared(Midnight(startDate.value), Midnight(endDate.value), accountPwPlain.value,
                                   rprsntvBrthdyPlain, accountPw2Plain, accountNumber));
    }

    /**
     * main.py:197-212: look the adapter up and call it for BANK001 and BANK011; for any other
     * bank `original_excel` stays unassigned, and reading it raises.
     */
    method DispatchAdapter(env: Env, r: Request, p: Prepared, downloadDir: string) returns (excels: Result<(string, string), PyException>)
      modifies this
      ensures effects == old(effects) + Dispatch(env, r, p, downloadDir).effects
      ensures excels == Dispatch(env, r, p, downloadDir).outcome
      ensures pending == old(pending)
    {
      var files: Option<(string, string)> := None;
      if r.bankSe == "BANK001" || r.bankSe == "BANK011" {
        var func := Lookup(r.bankSe, r.accountSe);
        if func.Failure? {
          return Failure(func.error);
        }
        var call := AdapterCall(func.value, ChromeDriverPath, p.account, p.password,
                                if r.accountSe == "01" then r.bizrno else p.birthday,
                                p.start, p.end, downloadDir);
        var got := CallAdapter(env, call);
        if got.Failure? {
          return Failure(got.error);
        }
        files := Some(got.value);
      }
      if files.None? {
        return Failure(UnboundLocal("original_excel"));
      }
      excels := Success(files.value);
    }

    /** main.py:220-228: both uploads, then the 'S' write with both remote paths. */
    method UploadAndComplete(env: Env, r: Request, originalExcel: string, uploadExcel: string) returns (raised: Option<PyException>)
      modifies this
      ensures effects == old(effects) + Deliver(env, r, (originalExcel, uploadExcel)).effects
      ensures raised == Raised(Deliver(env, r, (originalExcel, uploadExcel)))
      ensures pending == old(pending)
    {
      raised := UploadFileSftp(env, originalExcel, env.apiRemotePath);
      if raised.Some? {
        return;
      }
      raised := UploadFileSftp(env, uploadExcel, env.uploadRemotePath);
      if raised.Some? {
        return;
      }
      UpdateRequestStatus(r.reqSeq, Succeeded, None, Some(env.uploadRemotePath), Some(env.apiRemotePath));
    }

    /** The `try` block of execute_request (main.py:165-228); returns what it raises. */
    method TryBlock(env: Env, r: Request, timestamp: string, downloadDir: string) returns (raised: Option<PyException>)
      modifies this
      ensures effects == old(effects) + TryTrace(env, r, downloadDir).effects
      ensures raised == Raised(TryTrace(env, r, downloadDir))
      ensures pending == old(pending)
    {
      hide Prepare, Dispatch, Deliver;
      var prepared := PrepareInputs(env, r);
      if prepared.Failure? {
        return Some(prepared.error);
      }
      ghost var pe := Prepare(env, r).effects;
      var excels := DispatchAdapter(env, r, prepared.value, downloadDir);
      ghost var de := Dispatch(env, r, prepared.value, downloadDir).effects;
      AppendAssoc(old(effects), pe, de, []);
      if excels.Failure? {
        return Some(excels.error);
      }
      var originalExcel, uploadExcel := excels.value.0, excels.value.1;

      // main.py builds the two artifact names here, then uploads to paths it never defines
      var names := ArtifactNames(r.reqSeq, timestamp, originalExcel, uploadExcel);

      raised := UploadAndComplete(env, r, originalExcel, uploadExcel);
      AppendAssoc(old(effects), pe, de, Deliver(env, r, (originalExcel, uploadExcel)).effects);
    }

    /** execute_request; returns the exception that escapes it, if any. */
    method ExecuteRequest(env: Env, r: Request, timestamp: string) returns (escaped: Option<PyException>)
      modifies this
      ensures effects == old(effects) + Process(env, r, timestamp).effects
      ensures escaped == Process(env, r, timestamp).escaped
      ensures pending == old(pending)
    {
      hide TryTrace;
      UpdateRequestStatus(r.reqSeq, InProgress, None, None, None);
      var downloadDir := DownloadDir(r.iniHptlNo, r.reqSeq, timestamp);
      escaped := env.setup(downloadDir);
      if escaped.Some? {
        return;
      }
      var raised := TryBlock(env, r, timestamp, downloadDir);
      if raised.Some? {
        var coreErrorMsg := CoreErrorMessage(raised.value);
        UpdateRequestStatus(r.reqSeq, Failed, Some(coreErrorMsg), None, None);
      }
      ProcessAfterSetup(env, r, timestamp);
      AppendAssoc(old(effects), [Claim(r.reqSeq)], TryTrace(env, r, downloadDir).effects, if raised.Some? then [Fail(r.reqSeq, raised.value)] else []);
    }

    /** main, for `polls` rounds of its `while True`; returns the exception that ends it, if any. */
    method PollLoop(env: Env, polls: nat) returns (escaped: Option<PyException>)
      modifies this
      ensures effects == old(effects) + Run(env, old(pending), 0, polls).effects
      ensures pending == Run(env, old(pending), 0, polls).pending
      ensures escaped == Run(env, old(pending), 0, polls).escaped
    {
      hide Process, Run;
      ghost var done: seq<Effect> := [];
      escaped := None;
      var k := 0;
      while k < polls
        invariant k <= polls && escaped == None
        invariant effects == old(effects) + done
        invariant Run(env, old(pending), 0, polls) == Then(done, Run(env, pending, k, polls - k))
      {
        ghost var queue := pending;
        var request := FetchPendingRequest();
        if request.Some? {
          escaped := ExecuteRequest(env, request.value, env.clock(k));
          RunBusyStep(env, queue, k, polls - k, done);
          done := done + Process(env, request.value, env.clock(k)).effects;
          if escaped.Some? {
            return;
          }
        } else {
          RunIdleStep(env, k, polls - k);
        }
        k := k + 1;
      }
      RunNoPolls(env, pending, k);
    }
  }

  /** One poll that finds a pending request, seen from the run of all the polls so far. */
  lemma RunBusyStep(env: Env, pending: seq<Request>, k: nat, polls: nat, done: seq<Effect>)
    requires 0 < polls && pending != []
    ensures var a := Process(env, pending[0], env.clock(k));
      && (a.escaped.Some? ==> Then(done, Run(env, pending, k, polls)) == RunResult(done + a.effects, pending[1..], a.escaped))
      && (a.escaped.None? ==> Then(done, Run(env, pending, k, polls)) == Then(done + a.effects, Run(env, pending[1..], k + 1, polls - 1)))
  {
    hide TryTrace;
    var a := Process(env, pending[0], env.clock(k));
    if a.escaped.None? {
      ThenAssoc(done, a.effects, Run(env, pending[1..], k + 1, polls - 1));
    }
  }

  /** A poll that finds nothing pending only uses up the poll. */
  lemma RunIdleStep(env: Env, k: nat, polls: nat)
    requires 0 < polls
    ensures Run(env, [], k, polls) == Run(env, [], k + 1, polls - 1)
  {
  }

  /** With no poll left nothing happens. */
  lemma RunNoPolls(env: Env, pending: seq<Request>, k: nat)
    ensures Run(env, pending, k, 0) == RunResult([], pending, None)
  {
  }

  lemma ThenAssoc(done: seq<Effect>, more: seq<Effect>, rest: RunResult)
    ensures Then(done, Then(more, rest)) == Then(done + more, rest)
  {
    assert done + (more + rest.effects) == done + more + rest.effects;
  }

  /** The run `rest` preceded by the effects `done`. */
  function Then(done: seq<Effect>, rest: RunResult): RunResult {
    RunResult(done + rest.effects, rest.pending, rest.escaped)
  }
}
