# bankapi request worker — a Dafny model

bankapi is a Windows worker that fetches bank statements for hospitals. It polls a request ledger. For each pending row it:

1. marks the row in progress ('P');
2. decrypts the stored credentials;
3. drives the bank's web site through an adapter, which returns two statement files;
4. uploads both files over SFTP;
5. marks the row done ('S', with both remote paths) or failed ('E', with `TypeName: message`).

This project models that request worker (`main.py`) and the two pure helpers of the NongHyup adapter (`NH_BANK.py`), and proves what they promise.

Modules, one per concern of the source:

- `Wrappers` (`wrappers.dfy`): `Option`, `Result`, and Python truthiness of an optional string.
- `Errors` (`errors.dfy`): a Python exception as type name plus message, and `extract_core_error_message`.
- `Text` (`text.dfy`): ASCII digits, `re.sub(r'\D', '', s)`, decimal reading (`int`) and rendering.
- `Calendar` (`calendar.dfy`):
  - Gregorian month lengths;
  - dates and `datetime` moments;
  - `datetime.strptime(s, '%Y-%m-%d')` following CPython's pattern for `%Y`, `%m` and `%d`, then its range checks;
  - `strftime` of `%Y-%m-%d` and `%y%m%d`.
- `Helpers` (`helpers.dfy`): `is_hex`, `format_birthdate`, the web-path join, `ntpath.splitext`, and the two artifact names.
- `Sftp` (`sftp.dfy`): `sftp_makedirs` as a method of a `RemoteStore` class. Its state is the set of existing remote paths and the log of `mkdir` calls.
- `NhBank` (`nh_bank.dfy`): `parse_amount` and `get_month_date_range`.
- `Orchestrator` (`orchestrator.dfy`): `execute_request` and the polling loop.
  - What the worker does to the world is a trace of `Effect`s: ledger status writes, decryptions, the adapter call, and uploads.
  - The collaborators it cannot see are the total functions of an `Env`: AES decryption, the Chrome and download-directory set-up, the clock, the adapter, and the SFTP upload.
  - `Process` (one request) and `Run` (the loop) are specification functions.
  - The `Worker` class holds the trace and the pending rows. Its methods follow the source statement by statement and are proved to produce exactly those traces.
- `OrchestratorProps` (`orchestrator_props.dfy`): the ledger and credential properties, proved of `Process` and `Run`.

## Model

| member | source | states |
|---|---|---|
| Errors.CoreErrorMessage | main.py:26-28 | the stored text is the type name, then `": "`, then the message, with nothing added; `Errors.CoreErrorRoundTrip` shows it is lossless |
| Errors.CoreErrorRoundTrip | main.py:26-28 | the `TypeName: message` string loses nothing: when the type name has no colon, splitting at the first `": "` gives back the exception |
| Text.Digits | main.py:190 | `re.sub(r'\D', '', s)` keeps only digits and never lengthens the text |
| Text.DigitsConcat | main.py:190 | stripping distributes over concatenation, so the result is exactly the digit characters of the input, in their original order |
| Text.DigitsFixedIff | NH_BANK.py:233 | a text is left unchanged by the stripping if and only if it consists of digits only |
| Text.DecimalTextRoundTrip | NH_BANK.py:234 | `int` of the decimal rendering of any natural number is that number |
| Text.PadDecimalRoundTrip | main.py:136 | a zero-padded field of width `w`, as `strftime` writes one, reads back as the number |
| Calendar.DaysInMonth | NH_BANK.py:238 | `calendar.monthrange(year, month)[1]` is between 28 and 31; `Calendar.MonthLengths` pins February and leap years |
| Calendar.MonthLengths | NH_BANK.py:238 | `monthrange`'s month length is 28 to 31; below 30 exactly for February; February has 29 days exactly in leap years; a year has 365 or 366 days |
| Calendar.MatchMonth | main.py:136 | the `%m` field accepts a month 1..12 and consumes at least one character |
| Calendar.MatchDay | main.py:136 | the `%d` field accepts a day 1..31 and consumes at least one character |
| Calendar.ParseIsoDate | main.py:169-170 | `strptime(s, '%Y-%m-%d')` succeeds only with a valid date, read from a text of 8 to 10 characters that starts with four digits and a dash; every failure is a ValueError |
| Calendar.IsoTextRoundTrip | main.py:169-170 | `strptime` reads every valid date's ISO text back to that date |
| Calendar.Yymmdd | main.py:136 | `strftime('%y%m%d')` gives six digits |
| Helpers.IsHex | main.py:130-131 | a text passing `is_hex` is non-empty and made of hex characters only; `Helpers.IsHexIff` gives the converse |
| Helpers.IsHexIff | main.py:130-131 | `is_hex(s)` holds if and only if `s` is non-empty and every character is in `0-9a-fA-F` |
| Helpers.DigitStringIsHex | main.py:178 | every non-empty digit string, a plaintext `YYMMDD` birthdate among them, passes `is_hex` |
| Helpers.FormatBirthdate | main.py:133-138 | the argument comes back unchanged exactly when `strptime` rejects it as `%Y-%m-%d`; otherwise the result is six digits |
| Helpers.FormatBirthdateRejectedUnchanged | main.py:137-138 | an impossible day, a text without dashes, month 13 and trailing data are all returned unchanged |
| Helpers.FormatBirthdateOfIso | main.py:136 | a valid ISO date becomes the last two year digits, the month and the day, taken from the ISO text's own positions |
| Helpers.FormatBirthdateExample | main.py:133-138 | "1990-01-15" gives "900115", and "900115" is returned unchanged |
| Helpers.FormatBirthdateShortUnchanged | main.py:137-138 | anything shorter than a `%Y-%m-%d` date is returned unchanged |
| Helpers.FormatBirthdateIdempotent | main.py:133-138 | reformatting a reformatted birthdate changes nothing |
| Helpers.WebPath | main.py:107 | the web path is one character longer than directory and file name together, with `/` between them and the file name unchanged at the end; `Helpers.WebPathShape` gives the directory part |
| Helpers.WebPathShape | main.py:107 | the web path is the directory, with every backslash turned into a slash and nothing else changed, then one slash, then the file name unchanged |
| Helpers.LastIndexOf | main.py:212-213 | `rfind` (used by `splitext`): the index holds the character, and no later index does |
| Helpers.Splitext | main.py:212-213 | stem plus extension is the path; the extension is empty, or starts with its only dot and contains no path separator |
| Helpers.ArtifactNames | main.py:215-216 | both artifact names start with the request's REQ_SEQ; `Helpers.ArtifactNamesProperties` shows they differ and keep their extensions |
| Helpers.ArtifactNamesProperties | main.py:212-216 | with a digit timestamp the `_API_` name and the upload name never coincide, and each keeps the extension of the file it was built from |
| Sftp.Split | main.py:32 | `str.split('/')` gives at least one part, and no part contains the separator |
| Sftp.SplitJoin | main.py:32 | joining the parts with `/` gives back the text |
| Sftp.JoinSplit | main.py:32 | splitting a `/`-join of separator-free parts gives back the parts |
| Sftp.NonEmpty | main.py:35 | every component the walk keeps is non-empty |
| Sftp.NonEmptyConcat | main.py:35 | the filter distributes over concatenation, so it keeps the non-empty parts in their order |
| Sftp.NonEmptyAllNonEmpty | main.py:35 | parts that are all non-empty are kept as they are |
| Sftp.Prefixes | main.py:34-36 | the walk builds one path per component |
| Sftp.ComponentsOfPath | main.py:32-36 | the components of `/c1/.../ck` are `c1`..`ck`, so the last path the walk builds is the directory itself |
| Sftp.MissingIff | main.py:37-40 | `mkdir` is called for a path if and only if it is one of the prefixes and did not exist |
| Sftp.RemoteStore.MakeDirs | main.py:30-40 | afterwards the existing paths are the old ones plus every prefix `/c1/.../ck`, and nothing else; the `mkdir` log grows by exactly the prefixes that were missing, in walk order |
| Sftp.MakeDirsIdempotent | main.py:37-40 | once every prefix exists, a second call makes no `mkdir` and adds no path |
| NhBank.ParseAmount | NH_BANK.py:232-234 | the amount is a natural number with no more decimal digits than the text has digits |
| NhBank.ParseAmountNoDigits | NH_BANK.py:234 | a text without digits, the empty text among them, reads as 0 |
| NhBank.ParseAmountIgnoresNonDigit | NH_BANK.py:233 | inserting a non-digit anywhere leaves the amount unchanged |
| NhBank.ParseAmountAppendDigit | NH_BANK.py:233-234 | appending a digit to the text appends it to the number |
| NhBank.ParseAmountRoundTrip | NH_BANK.py:233-234 | the decimal rendering of any natural number reads back as that number |
| NhBank.ParseAmountExample | NH_BANK.py:232-234 | "1,234,000원" reads as 1234000 |
| NhBank.GetMonthDateRange | NH_BANK.py:236-245 | succeeds exactly for years 1..9999 and months 1..12. A failure is OverflowError when the year or the month does not fit a C `int`, and ValueError otherwise. The first component is day 1 at midnight. The second is today or the month's last day, and after neither of them |
| NhBank.FutureMonthIsEmpty | NH_BANK.py:240-245 | for a month wholly after today, the range ends before it starts |
| NhBank.BeforeTotal | NH_BANK.py:242 | `datetime` comparison is a strict total order: of two different moments exactly one is before the other, and it is transitive |
| Orchestrator.DownloadDir | main.py:162 | the download directory begins with `C:\BankLedgers\` and ends with the timestamp |
| Orchestrator.DownloadDirDirectlyUnderBase | main.py:162 | when neither INI_HPTL_NO, REQ_SEQ nor the timestamp holds a backslash, the download directory lies directly under `C:\BankLedgers` |
| Orchestrator.Lookup | main.py:197-198 | the lookup succeeds exactly for BANK001; account type '01' picks the corporate adapter and anything else the personal one; any other bank raises KeyError naming it |
| Orchestrator.AccountPassword | main.py:172-174 | ACCOUNT_PW is always decrypted, and the step succeeds exactly when decryption gives a non-empty text, which it returns; otherwise ValueError "ACCOUNT_PW 복호화 실패" |
| Orchestrator.RevealIfHex | main.py:184-188 | a non-empty hex-looking value is decrypted, and must decrypt to a non-empty text; any other value is kept without a decryption |
| Orchestrator.Birthdate | main.py:176-182 | the birthdate makes the same decryption and fails exactly when it does; a non-empty birthdate comes back present, an empty or missing one unchanged |
| Orchestrator.Prepare | main.py:165-190 | preparation only decrypts; on success the account is the digits of ACCOUNT and the password is the decrypted ACCOUNT_PW |
| Orchestrator.Dispatch | main.py:197-207 | for BANK001 exactly one adapter call, whose result is the step's result; for any other bank no call and a failure |
| Orchestrator.Deliver | main.py:220-228 | uploads the raw file to the API path, then the upload file to the upload path. It succeeds exactly when both uploads do, and only then writes 'S' with both remote paths |
| Orchestrator.TryTrace | main.py:165-228 | the `try` block starts with exactly the effects of preparing the inputs; `OrchestratorProps.TryTraceShape` and `OrchestratorProps.TryTraceAfterPrepare` state the rest |
| Orchestrator.Process | main.py:151-236 | every request first writes 'P' for its row, and what escapes is exactly what the set-up outside the `try` raises; `OrchestratorProps.ProcessShape` states the whole status discipline |
| Orchestrator.Run | main.py:238-245 | the loop never adds to the pending queue, and without an escape as many polls as there are rows empty it; `OrchestratorProps.RunLedger` states the ledger afterwards |
| Orchestrator.Worker.UpdateRequestStatus | main.py:157 | appends one status write and changes nothing else |
| Orchestrator.Worker.DecryptAes128 | main.py:112-128 | returns what AES decryption gives, appends the decryption to the trace and changes nothing else |
| Orchestrator.Worker.CallAdapter | main.py:199-207 | returns the adapter's result and records the call |
| Orchestrator.Worker.UploadFileSftp | main.py:220-221 | returns the upload's exception, if any, and records the upload |
| Orchestrator.Worker.FetchPendingRequest | main.py:240 | returns and removes the first pending row, or None when there is none |
| Orchestrator.Worker.PrepareInputs | main.py:165-190 | leaves exactly the trace and the result of `Prepare` |
| Orchestrator.Worker.DispatchAdapter | main.py:197-207 | leaves exactly the trace and the result of `Dispatch` |
| Orchestrator.Worker.UploadAndComplete | main.py:220-228 | leaves exactly the trace of `Deliver` and raises what it raises |
| Orchestrator.Worker.TryBlock | main.py:165-228 | leaves exactly the trace of the `try` block and raises what it raises |
| Orchestrator.Worker.ExecuteRequest | main.py:151-236 | leaves exactly the trace of `Process`, and lets through the exception that escapes it |
| Orchestrator.Worker.PollLoop | main.py:238-245 | after any number of polls the trace, the pending rows and the escaping exception are those of `Run` |
| OrchestratorProps.TryTraceShape | main.py:165-228 | inside the `try` the only status write is a final 'S'. It is written only on success, right after the adapter call and the two fault-free uploads of the files that call returned, and it carries both remote paths |
| OrchestratorProps.ProcessShape | main.py:157-236 | 'P' comes first, before any decryption or adapter call. If the set-up outside the `try` fails, its exception escapes and 'P' is all there is. Otherwise exactly one more status is written, a terminal one for the same row, as the last effect |
| OrchestratorProps.SucceededOnlyAfterBothUploads | main.py:220-228 | every 'S' write comes right after the adapter call and both uploads, which succeeded, and carries both remote paths |
| OrchestratorProps.FailureCarriesCoreMessage | main.py:230-236 | any exception inside the `try` ends the request with an 'E' write carrying `type name + ": " + message` and no paths; a completed `try` ends in 'S' |
| OrchestratorProps.AccountPwFailedMessage | main.py:174 | the core message of a failed ACCOUNT_PW decryption is "ValueError: ACCOUNT_PW 복호화 실패" |
| OrchestratorProps.BirthdateFailedMessage | main.py:181 | the core message of a failed RPRSNTV_BRTHDY decryption is "ValueError: RPRSNTV_BRTHDY 복호화 실패" |
| OrchestratorProps.AccountPw2FailedMessage | main.py:188 | the core message of a failed ACCOUNT_PW2 decryption is "ValueError: ACCOUNT_PW2 복호화 실패" |
| OrchestratorProps.AccountPasswordFailureFails | main.py:172-174 | an empty or failed ACCOUNT_PW decryption gives exactly the trace 'P', that decryption, 'E' with its message |
| OrchestratorProps.BirthdateDecryptFailureFails | main.py:177-181 | a hex-looking birthdate that fails to decrypt gives exactly 'P', both decryptions, 'E' with its message |
| OrchestratorProps.SecondPasswordDecryptFailureFails | main.py:185-188 | a hex-looking second password that fails to decrypt ends the trace with that decryption and 'E' with its message |
| OrchestratorProps.PrepareDecrypts | main.py:172-188 | preparation decrypts only ACCOUNT_PW and the hex-looking, non-empty birthdate and second password |
| OrchestratorProps.DecryptsOnlyHexSecrets | main.py:172-188 | in a whole request every decryption is of the request's own ACCOUNT_PW, or of its non-empty, hex-looking RPRSNTV_BRTHDY or ACCOUNT_PW2; any other value is used without decryption |
| OrchestratorProps.PreparedValues | main.py:169-182 | after preparation both dates were parsed and are at midnight, and the birthday handed on was decrypted when hex-looking, then reformatted, or was passed on as it was when empty |
| OrchestratorProps.DispatchCallCorp | main.py:198-207 | a corporate BANK001 account calls the corporate adapter with the driver path, account, password, BIZRNO, both dates and the download directory |
| OrchestratorProps.DispatchCallPersonal | main.py:198-207 | any other BANK001 account calls the personal adapter with the prepared birthday in the BIZRNO position |
| OrchestratorProps.TryTraceAdapterCalls | main.py:190-207 | every adapter call in the `try` block has the arguments main.py passes |
| OrchestratorProps.AdapterReceivesProperArguments | main.py:190-207 | every adapter call has the bank BANK001, the corporate adapter exactly for type '01', the fixed driver path, only the digits of ACCOUNT in their order, the decrypted ACCOUNT_PW, BIZRNO or the processed birthdate, both dates at midnight and the request's download directory |
| OrchestratorProps.DispatchUnsupported | main.py:197-212 | a bank other than BANK001 makes no adapter call and fails: KeyError 'BANK011' for BANK011, UnboundLocalError on `original_excel` for any other |
| OrchestratorProps.TryTraceUnsupportedBank | main.py:197-212 | for such a bank the `try` block only decrypts and always raises, with that exception once the inputs were read |
| OrchestratorProps.UnsupportedBankFails | main.py:197-236 | a request for any bank but BANK001 makes no adapter call and no upload, is never marked 'S', and ends in 'E' with that exception's message once its inputs were read |
| OrchestratorProps.UnsupportedBankKeyErrorMessage | main.py:198 | for BANK011 the 'E' message is "KeyError: 'BANK011'" |
| OrchestratorProps.PlaintextBirthdateIsDecrypted | main.py:177-181 | a plaintext digit birthdate such as "601030" is sent to decryption as the third effect, and the request fails with the birthdate message when that decryption fails |
| OrchestratorProps.PlaintextBirthdateAlwaysFails | main.py:176-181 | when only hex text of whole 16-byte blocks can decrypt, as with the AES-128-ECB decryption of main.py:118-120, a plaintext digit birthdate shorter than 32 characters always ends the request in 'E' with the birthdate message |
| OrchestratorProps.ProcessStatus | main.py:157-236 | after one request its own row is 'S' or 'E', or stays 'P' when an exception escaped; no other row is written |
| OrchestratorProps.RunLedger | main.py:238-245 | over rows with distinct REQ_SEQ, rows are taken in order. Without an escape the loop takes as many as there were polls or rows. Every row taken ends 'S' or 'E', except the one an exception escaped from, which stays 'P'. Rows not taken are never written |

## Left out

- AES-128-ECB with PKCS#7 (`decrypt_aes128`, main.py:112-128) is a foreign library. It is the opaque `Env.decrypt`, which stands for decryption under the configured key and gives None on any failure.
- SFTP:
  - The connection and `sftp.put` (main.py:42-55) are the opaque `Env.upload`, which stands for the configured server and gives the exception raised, if any.
  - `sftp_makedirs` is modelled on its own `RemoteStore`. The worker's trace does not link an upload to the directories it creates.
- Chrome launch and the download directory (`launch_chrome_with_debugging`, `ensure_directory_exists`, main.py:57-78, 87-89, 159-163) are the opaque `Env.setup`. It gives the exception raised, if any, for a download directory.
- File handling:
  - The file moves and existence checks of `move_and_return_web_path` and `check_file_exists` (main.py:91-106, 140-149) are left out. Only the web-path string is modelled.
  - `move_and_return_web_path` is never called by the worker.
- The database (`db_connector`) is not part of this model.
  - The ledger is the trace of status writes.
  - A status write cannot fail in the model.
  - `fetch_pending_requests` is modelled as taking the first of a sequence of pending rows.
  - None stands for a NULL value only in RPRSNTV_BRTHDY, ACCOUNT_PW2 and BIZRNO. The other columns are always strings in the model. In the source a NULL SCH_BGNDE, SCH_ENDDE (main.py:169-170) or ACCOUNT (main.py:190) raises TypeError. A NULL ACCOUNT_PW is swallowed by `decrypt_aes128` (main.py:126-128) and ends in the ACCOUNT_PW ValueError. A NULL BANK_SE fails the test at main.py:197 and ends in the UnboundLocalError. A NULL ACCOUNT_SE selects the personal adapter. A NULL REQ_SEQ or INI_HPTL_NO is formatted as "None".
- Clocks:
  - `datetime.now()` for the timestamp is `Env.clock`, by poll number.
  - `datetime.today()` in `get_month_date_range` is the parameter `today`.
- Logging, `print` (including the print of plaintext credentials at main.py:192-195) and `time.sleep` are left out.
- Orchestrator.Worker.PollLoop: `while True` never ends, so the loop runs a given number of polls. `Run` describes every finite prefix of the endless loop.
- Text.Digits: `\d` and `\D` here are ASCII digits. Python's also match other Unicode decimal digits.
- NhBank.ParseAmount: CPython's limit of 4300 digits for `int()` of a string is not modelled. Longer digit strings are read like any other.
- Calendar.ParseIsoDate: the message of the "does not match format" ValueError quotes the text as it is, where Python uses `repr` with its escaping.
- Calendar.ParseIsoDate: `%Y` and the second digit of `%d`'s `[12]\d` alternative are ASCII digits here. CPython compiles both `\d` without `re.ASCII`, so it also accepts other Unicode decimal digits there ("1990-01-1٥" parses as 1990-01-15).
- NhBank.GetMonthDateRange: the OverflowError message is the one of a 32-bit C `long`, as on Windows. Where a C `long` is 64 bits, a value that fits it but not a C `int` gives "signed integer is greater than maximum" or "signed integer is less than minimum" instead.
- Orchestrator.DownloadDir: it joins the base directory, a backslash and the folder name. `ntpath.join` would instead restart from the folder name when that name is rooted or has a drive (an INI_HPTL_NO starting with `\` or `C:`); that case is not modelled.
- Orchestrator.UnboundLocal: the message has the Python 3.11+ wording. Python 3.10 says "local variable 'original_excel' referenced before assignment".
- Browser automation and statement reading in NH_BANK.py are left out, as is `convert_xls_to_xlsx`.
- `not_implemented_bank` is never referenced.
- Orchestrator.Prepare: its contract states the account and password only. The dates and the birthday are stated by the lemma `OrchestratorProps.PreparedValues`.

## Source defects, as modelled

The model keeps the behaviour of the code as written, except where main.py uses names it never defines; those become inputs of the `Env`, as said below.

- The `bank_functions` literal at main.py:83-84 is never closed, so the file does not parse as shown. The model uses the table with the one row shown: BANK001 with its personal and corporate adapters.
- BANK011 passes the test at main.py:197 but has no row. The lookup raises KeyError, and the request ends in 'E' with "KeyError: 'BANK011'" (`OrchestratorProps.UnsupportedBankKeyErrorMessage`).
- Any other bank skips the adapter call. Reading `original_excel` at main.py:212 then raises UnboundLocalError, and the request ends in 'E' (`OrchestratorProps.UnsupportedBankFails`).
- `api_remote_path` and `upload_remote_path` (main.py:220-225) are never defined; as written, a request that reached main.py:220 would raise NameError there (with the undefined `AES_KEY` below, none reaches it). The model takes them as inputs (`Env.apiRemotePath`, `Env.uploadRemotePath`).
- `AES_KEY` (main.py:115) and `SFTP_HOST`, `SFTP_PORT`, `SFTP_USER` and `SFTP_PASS` (main.py:44-45) are never defined or imported in main.py.
  - As written, `decrypt_aes128` catches the NameError (main.py:126-128) and returns None for every input. So every request whose dates parse ends in 'E' with "ValueError: ACCOUNT_PW 복호화 실패" (`OrchestratorProps.AccountPasswordFailureFails` with an `Env.decrypt` that always gives None).
  - Every SFTP upload would raise NameError.
  - The model takes `Env.decrypt` and `Env.upload` to stand for the configured key and server, so it also describes the code once those names are supplied.
- A plaintext `YYMMDD` birthdate such as "601030" is all digits, so `is_hex` accepts it and it is sent to decryption (`OrchestratorProps.PlaintextBirthdateIsDecrypted`). `unhexlify` of six digits gives 3 bytes (main.py:118), and the ECB `finalize` (main.py:120) rejects anything that is not whole 16-byte blocks, so that decryption always gives None and the request always ends in 'E' with "ValueError: RPRSNTV_BRTHDY 복호화 실패" (`OrchestratorProps.PlaintextBirthdateAlwaysFails`, under that property of the cipher).
- The 'P' write, the Chrome launch and the directory creation (main.py:157-163) are outside the `try`. A failure in the set-up leaves the row at 'P' with no 'E'. The exception escapes `execute_request` and ends the polling loop (`OrchestratorProps.ProcessShape`, `OrchestratorProps.RunLedger`).
- ACCOUNT_PW2 is decrypted but never passed to the adapter (`OrchestratorProps.AdapterReceivesProperArguments`: an `AdapterCall` has no such argument).
- The two artifact names of main.py:215-216 are built but never used. `Worker.TryBlock` computes them and does nothing with them.
