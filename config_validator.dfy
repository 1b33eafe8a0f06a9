/**
 * Start-up configuration checks of app/utils/config_validator.py: the list
 * of missing required settings, the credentials-file check, the numeric
 * checks and the report that combines them.
 *
 * The settings object is the `Settings` record below, holding the fields of
 * app/config.py the checks read; `getattr` on any other name finds nothing,
 * and a direct attribute read of such a name raises. Whether a file exists is
 * the `fileExists` predicate handed in.
 *
 * The checks as written ask for `GOOGLE_CREDENTIALS_PATH`, which the settings
 * class does not declare (it declares `GOOGLE_CREDENTIALS_FILE`). The model
 * keeps both readings: the functions take the names, the `...AsWritten`
 * constants hold the names the source uses, and the methods, which stand for
 * the checks the module means to run, use `GOOGLE_CREDENTIALS_FILE`.
 */
module ConfigValidator {
  import opened Common

  /** The settings the checks read, as app/config.py declares them. */
  datatype Settings = Settings(
    openaiApiKey: string,
    twilioAccountSid: string,
    twilioAuthToken: string,
    googleCredentialsFile: string,
    confirmTtlMin: int,
    rateLimitRpm: int,
    rateLimitTpm: int)

  /** `getattr(settings, name, None)` for the text settings; `None` for a name the class does not declare. */
  function Attr(s: Settings, name: string): (r: Option<string>)
    ensures name == "GOOGLE_CREDENTIALS_PATH" ==> r.None?
    ensures name == "GOOGLE_CREDENTIALS_FILE" ==> r == Some(s.googleCredentialsFile)
  {
    if name == "OPENAI_API_KEY" then Some(s.openaiApiKey)
    else if name == "TWILIO_ACCOUNT_SID" then Some(s.twilioAccountSid)
    else if name == "TWILIO_AUTH_TOKEN" then Some(s.twilioAuthToken)
    else if name == "GOOGLE_CREDENTIALS_FILE" then Some(s.googleCredentialsFile)
    else None
  }

  const CredentialsKeyAsWritten := "GOOGLE_CREDENTIALS_PATH"
  const CredentialsKey := "GOOGLE_CREDENTIALS_FILE"

  const RequiredAsWritten := ["OPENAI_API_KEY", "TWILIO_ACCOUNT_SID", "TWILIO_AUTH_TOKEN", CredentialsKeyAsWritten]
  const Required := ["OPENAI_API_KEY", "TWILIO_ACCOUNT_SID", "TWILIO_AUTH_TOKEN", CredentialsKey]

  // ---------------------------------------------------------------------
  // validate_required_env_vars
  // ---------------------------------------------------------------------

  /** The names, in listed order, whose setting is absent or empty. */
  function MissingVars(s: Settings, names: seq<string>): (r: seq<string>)
    ensures |r| <= |names|
  {
    if names == [] then []
    else
      var last := names[|names| - 1];
      MissingVars(s, names[..|names| - 1]) + (if NonEmpty(Attr(s, last)) then [] else [last])
  }

  /** A name is reported exactly when it is listed and its setting is absent or empty. */
  lemma {:induction false} MissingVarsMembers(s: Settings, names: seq<string>, v: string)
    ensures v in MissingVars(s, names) <==> v in names && !NonEmpty(Attr(s, v))
  {
    if names != [] {
      var init := names[..|names| - 1];
      MissingVarsMembers(s, init, v);
      assert names == init + [names[|names| - 1]];
    }
  }

  /** The report keeps the listed order: checking two lists one after the other gives the two reports one after the other. */
  lemma {:induction false} MissingVarsAppend(s: Settings, a: seq<string>, b: seq<string>)
    ensures MissingVars(s, a + b) == MissingVars(s, a) + MissingVars(s, b)
  {
    if b != [] {
      var init := b[..|b| - 1];
      assert (a + b)[..|a + b| - 1] == a + init;
      var last := b[|b| - 1];
      assert (a + b)[|a + b| - 1] == last;
      MissingVarsAppend(s, a, init);
      var tail := if NonEmpty(Attr(s, last)) then [] else [last];
      assert MissingVars(s, a + b) == MissingVars(s, a + init) + tail;
      assert MissingVars(s, b) == MissingVars(s, init) + tail;
      assert MissingVars(s, a) + MissingVars(s, init) + tail == MissingVars(s, a) + (MissingVars(s, init) + tail);
    } else {
      assert a + b == a;
    }
  }

  /** `validate_required_env_vars`, with the list of names as a parameter. */
  method ValidateRequiredEnvVars(s: Settings, required: seq<string>) returns (missing: seq<string>)
    ensures missing == MissingVars(s, required)
  {
    missing := [];
    var i := 0;
    while i < |required|
      invariant 0 <= i <= |required|
      invariant missing == MissingVars(s, required[..i])
    {
      var v := required[i];
      assert required[..i + 1][..i] == required[..i];
      if !NonEmpty(Attr(s, v)) {
        missing := missing + [v];
      }
      i := i + 1;
    }
    assert required[..i] == required;
  }

  // ---------------------------------------------------------------------
  // validate_file_paths
  // ---------------------------------------------------------------------

  const NotFound := "Google credentials file not found: "

  /**
   * `validate_file_paths` reading the setting `key`: `None` when the read
   * raises because no such setting is declared; otherwise one issue when the
   * path is set and does not exist.
   */
  function FilePathIssues(s: Settings, key: string, fileExists: string -> bool): (r: Option<seq<string>>)
    ensures r.None? <==> Attr(s, key).None?
    ensures r.Some? ==> |r.value| <= 1
    ensures r.Some? ==> (r.value != [] <==> Attr(s, key).value != "" && !fileExists(Attr(s, key).value))
    ensures r.Some? && r.value != [] ==> r.value[0] == NotFound + Attr(s, key).value
  {
    var path := Attr(s, key);
    if path.None? then None
    else if path.value != "" && !fileExists(path.value) then Some([NotFound + path.value])
    else Some([])
  }

  // ---------------------------------------------------------------------
  // validate_numeric_settings
  // ---------------------------------------------------------------------

  const TtlIssue := "CONFIRM_TTL_MIN must be positive"
  const RpmIssue := "OPENAI_RATE_LIMIT_RPM must be positive"
  const TpmIssue := "OPENAI_RATE_LIMIT_TPM must be positive"

  /** One fixed message per numeric setting that is not positive, in the order TTL, RPM, TPM. */
  function NumericIssues(s: Settings): (r: seq<string>)
    ensures |r| <= 3
  {
    (if s.confirmTtlMin <= 0 then [TtlIssue] else [])
    + (if s.rateLimitRpm <= 0 then [RpmIssue] else [])
    + (if s.rateLimitTpm <= 0 then [TpmIssue] else [])
  }

  /** Each message appears exactly when its setting is not positive, and there are no others. */
  lemma NumericIssuesIff(s: Settings)
    ensures TtlIssue in NumericIssues(s) <==> s.confirmTtlMin <= 0
    ensures RpmIssue in NumericIssues(s) <==> s.rateLimitRpm <= 0
    ensures TpmIssue in NumericIssues(s) <==> s.rateLimitTpm <= 0
    ensures forall m :: m in NumericIssues(s) ==> m == TtlIssue || m == RpmIssue || m == TpmIssue
    ensures NumericIssues(s) == [] <==> s.confirmTtlMin > 0 && s.rateLimitRpm > 0 && s.rateLimitTpm > 0
  {
    assert TtlIssue != RpmIssue && TtlIssue != TpmIssue && RpmIssue != TpmIssue by {
      assert TtlIssue[0] != RpmIssue[0];
      assert TtlIssue[0] != TpmIssue[0];
      assert RpmIssue[18] != TpmIssue[18];
    }
  }

  /** The defaults of app/config.py (10, 60 and 40000) pass. */
  lemma DefaultsPass(s: Settings)
    requires s.confirmTtlMin == 10 && s.rateLimitRpm == 60 && s.rateLimitTpm == 40000
    ensures NumericIssues(s) == []
  {
  }

  /** `validate_numeric_settings`, appending one message per failing check. */
  method ValidateNumericSettings(s: Settings) returns (issues: seq<string>)
    ensures issues == NumericIssues(s)
  {
    issues := [];
    if s.confirmTtlMin <= 0 {
      issues := issues + [TtlIssue];
    }
    if s.rateLimitRpm <= 0 {
      issues := issues + [RpmIssue];
    }
    if s.rateLimitTpm <= 0 {
      issues := issues + [TpmIssue];
    }
  }

  // ---------------------------------------------------------------------
  // validate_configuration
  // ---------------------------------------------------------------------

  datatype Report = Report(valid: bool, missingEnvVars: seq<string>, filePathIssues: seq<string>, numericIssues: seq<string>)

  /** `validate_configuration` with the given names; `None` when the file check raises. */
  function Configuration(s: Settings, required: seq<string>, key: string, fileExists: string -> bool): (r: Option<Report>)
    ensures r.None? <==> Attr(s, key).None?
    ensures r.Some? ==> r.value.missingEnvVars == MissingVars(s, required)
    ensures r.Some? ==> r.value.numericIssues == NumericIssues(s)
    ensures r.Some? ==> Some(r.value.filePathIssues) == FilePathIssues(s, key, fileExists)
    ensures r.Some? ==> (r.value.valid <==> r.value.missingEnvVars == [] && r.value.filePathIssues == [] && r.value.numericIssues == [])
  {
    var files := FilePathIssues(s, key, fileExists);
    if files.None? then None
    else
      var missing, numeric := MissingVars(s, required), NumericIssues(s);
      Some(Report(missing == [] && files.value == [] && numeric == [], missing, files.value, numeric))
  }

  /** As written, reading `GOOGLE_CREDENTIALS_PATH` directly raises, whatever the settings. */
  lemma AsWrittenAlwaysRaises(s: Settings, required: seq<string>, fileExists: string -> bool)
    ensures Configuration(s, required, CredentialsKeyAsWritten, fileExists).None?
  {
  }

  /** Even the list check alone always reports `GOOGLE_CREDENTIALS_PATH` as missing. */
  lemma AsWrittenPathAlwaysMissing(s: Settings)
    ensures CredentialsKeyAsWritten in MissingVars(s, RequiredAsWritten)
  {
    MissingVarsMembers(s, RequiredAsWritten, CredentialsKeyAsWritten);
  }

  /**
   * With the declared name, the check never raises, and the configuration
   * is valid exactly when the three keys and the credentials path are set,
   * the credentials file exists, and the three numbers are positive.
   */
  lemma CorrectedValidIff(s: Settings, fileExists: string -> bool)
    ensures Configuration(s, Required, CredentialsKey, fileExists).Some?
    ensures Configuration(s, Required, CredentialsKey, fileExists).value.valid <==>
      s.openaiApiKey != "" && s.twilioAccountSid != "" && s.twilioAuthToken != ""
      && s.googleCredentialsFile != "" && fileExists(s.googleCredentialsFile)
      && s.confirmTtlMin > 0 && s.rateLimitRpm > 0 && s.rateLimitTpm > 0
  {
    NumericIssuesIff(s);
    var m := MissingVars(s, Required);
    forall v | v in Required ensures v in m <==> !NonEmpty(Attr(s, v)) {
      MissingVarsMembers(s, Required, v);
    }
    assert m == [] <==> forall v :: v in Required ==> NonEmpty(Attr(s, v)) by {
      if m != [] {
        MissingVarsMembers(s, Required, m[0]);
      }
    }
    assert NonEmpty(Attr(s, Required[0])) <==> s.openaiApiKey != "";
    assert NonEmpty(Attr(s, Required[1])) <==> s.twilioAccountSid != "";
    assert NonEmpty(Attr(s, Required[2])) <==> s.twilioAuthToken != "";
    assert NonEmpty(Attr(s, Required[3])) <==> s.googleCredentialsFile != "";
    assert (forall v :: v in Required ==> NonEmpty(Attr(s, v))) <==>
      NonEmpty(Attr(s, Required[0])) && NonEmpty(Attr(s, Required[1])) && NonEmpty(Attr(s, Required[2])) && NonEmpty(Attr(s, Required[3]));
  }

  /**
   * `validate_configuration` with the declared credentials setting: the
   * three checks in order, then `valid` cleared when any of them found
   * something.
   */
  method ValidateConfiguration(s: Settings, fileExists: string -> bool) returns (r: Report)
    ensures Some(r) == Configuration(s, Required, CredentialsKey, fileExists)
  {
    var missing := ValidateRequiredEnvVars(s, Required);
    var files := FilePathIssues(s, CredentialsKey, fileExists).value;
    var numeric := ValidateNumericSettings(s);
    r := Report(true, missing, files, numeric);
    if missing != [] || files != [] || numeric != [] {
      r := r.(valid := false);
    }
  }
}
