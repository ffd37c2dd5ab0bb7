/** The start-up check of the build-time environment: the Firebase and
    JSearch settings are read, every blank one is reported by name, and the
    check fails with one message listing them. */
module EnvironmentValidator {
  import opened Wrappers
  import opened JsStrings

  /** The build-time environment (`import.meta.env`); an unset variable is absent. */
  type Env = map<string, string>

  /** A variable's value; an unset one reads as "" (both are falsy). */
  function Lookup(env: Env, name: string): string {
    if name in env then env[name] else ""
  }

  datatype FirebaseConfig = FirebaseConfig(
    apiKey: string, authDomain: string, projectId: string, storageBucket: string,
    messagingSenderId: string, appId: string, measurementId: string)

  datatype JSearchConfig = JSearchConfig(apiKey: string, apiHost: string)

  datatype EnvironmentConfig = EnvironmentConfig(firebase: FirebaseConfig, jsearch: JSearchConfig)

  const DefaultApiHost := "jsearch.p.rapidapi.com"

  /** The configuration object built from the environment; only the JSearch
      host has a default. */
  function ReadConfig(env: Env): EnvironmentConfig {
    EnvironmentConfig(
      FirebaseConfig(Lookup(env, "VITE_FIREBASE_API_KEY"), Lookup(env, "VITE_FIREBASE_AUTH_DOMAIN"),
                     Lookup(env, "VITE_FIREBASE_PROJECT_ID"), Lookup(env, "VITE_FIREBASE_STORAGE_BUCKET"),
                     Lookup(env, "VITE_FIREBASE_MESSAGING_SENDER_ID"), Lookup(env, "VITE_FIREBASE_APP_ID"),
                     Lookup(env, "VITE_FIREBASE_MEASUREMENT_ID")),
      JSearchConfig(Lookup(env, "VITE_JSEARCH_API_KEY"),
                    if Lookup(env, "VITE_JSEARCH_API_HOST") != "" then Lookup(env, "VITE_JSEARCH_API_HOST")
                    else DefaultApiHost))
  }

  /** One `[key, value]` pair of `Object.entries`. */
  datatype Entry = Entry(key: string, value: string)

  /** `Object.entries(config.firebase)`, in declaration order. */
  function FirebaseEntries(c: FirebaseConfig): seq<Entry> {
    [Entry("apiKey", c.apiKey), Entry("authDomain", c.authDomain), Entry("projectId", c.projectId),
     Entry("storageBucket", c.storageBucket), Entry("messagingSenderId", c.messagingSenderId),
     Entry("appId", c.appId), Entry("measurementId", c.measurementId)]
  }

  /** `Object.entries(config.jsearch)`, in declaration order. */
  function JSearchEntries(c: JSearchConfig): seq<Entry> {
    [Entry("apiKey", c.apiKey), Entry("apiHost", c.apiHost)]
  }

  /** `!value || value.trim() === ''` */
  predicate IsMissing(value: string) {
    value == "" || Trim(value) == ""
  }

  /** A value is missing exactly when it is made of whitespace only. */
  lemma IsMissingIff(value: string)
    ensures IsMissing(value) <==> IsBlank(value)
  {
    TrimEmptyIff(value);
  }

  /** `VITE_FIREBASE_${key.toUpperCase()}` */
  function FirebaseName(key: string): string {
    "VITE_FIREBASE_" + ToUpper(key)
  }

  /** `VITE_JSEARCH_${key === 'apiKey' ? 'API_KEY' : 'API_HOST'}` */
  function JSearchName(key: string): string {
    "VITE_JSEARCH_" + (if key == "apiKey" then "API_KEY" else "API_HOST")
  }

  /** The reported names of the missing Firebase entries, in order. */
  function MissingFirebase(entries: seq<Entry>): (r: seq<string>)
    ensures |r| <= |entries|
    ensures forall n :: n in r <==> exists e :: e in entries && IsMissing(e.value) && n == FirebaseName(e.key)
  {
    if entries == [] then []
    else (if IsMissing(entries[0].value) then [FirebaseName(entries[0].key)] else []) + MissingFirebase(entries[1..])
  }

  /** The reported names of the missing JSearch entries, in order. */
  function MissingJSearch(entries: seq<Entry>): (r: seq<string>)
    ensures |r| <= |entries|
    ensures forall n :: n in r <==> exists e :: e in entries && IsMissing(e.value) && n == JSearchName(e.key)
  {
    if entries == [] then []
    else (if IsMissing(entries[0].value) then [JSearchName(entries[0].key)] else []) + MissingJSearch(entries[1..])
  }

  /** Both reports work entry by entry, so the names come in the order of the
      entries: the report of a concatenation is the concatenation of the reports. */
  lemma {:induction false} MissingSplit(a: seq<Entry>, b: seq<Entry>)
    ensures MissingFirebase(a + b) == MissingFirebase(a) + MissingFirebase(b)
    ensures MissingJSearch(a + b) == MissingJSearch(a) + MissingJSearch(b)
    decreases |a|
  {
    if a != [] {
      var ab := a + b;
      assert ab[0] == a[0] && ab[1..] == a[1..] + b;
      MissingSplit(a[1..], b);
      var hf := if IsMissing(a[0].value) then [FirebaseName(a[0].key)] else [];
      calc {
        MissingFirebase(ab);
        hf + MissingFirebase(a[1..] + b);
        hf + (MissingFirebase(a[1..]) + MissingFirebase(b));
        (hf + MissingFirebase(a[1..])) + MissingFirebase(b);
      }
      var hj := if IsMissing(a[0].value) then [JSearchName(a[0].key)] else [];
      calc {
        MissingJSearch(ab);
        hj + MissingJSearch(a[1..] + b);
        hj + (MissingJSearch(a[1..]) + MissingJSearch(b));
        (hj + MissingJSearch(a[1..])) + MissingJSearch(b);
      }
    } else {
      assert a + b == b;
    }
  }

  /** One entry is reported, under its name, exactly when it is missing. */
  lemma MissingSingle(e: Entry)
    ensures MissingFirebase([e]) == (if IsMissing(e.value) then [FirebaseName(e.key)] else [])
    ensures MissingJSearch([e]) == (if IsMissing(e.value) then [JSearchName(e.key)] else [])
  {
    assert [e][1..] == [];
  }

  /** `[...missingFirebaseVars, ...missingJSearchVars]` */
  function MissingVars(c: EnvironmentConfig): seq<string> {
    MissingFirebase(FirebaseEntries(c.firebase)) + MissingJSearch(JSearchEntries(c.jsearch))
  }

  const MessagePrefix := "Missing required environment variables: "
  const MessageSuffix := ". Please check your .env file and ensure all variables are properly configured."

  function MissingMessage(missing: seq<string>): (r: string)
    ensures StartsWith(r, MessagePrefix)
  {
    var r := MessagePrefix + Join(missing, ", ") + MessageSuffix;
    assert r[..|MessagePrefix|] == MessagePrefix;
    r
  }

  /** The message names every missing variable; a single one stands between
      the prefix and the suffix, and each further one follows a ", ". */
  lemma MessageListsMissing(missing: seq<string>)
    ensures forall n :: n in missing ==> Contains(MissingMessage(missing), n)
    ensures |missing| == 1 ==> MissingMessage(missing) == MessagePrefix + missing[0] + MessageSuffix
    ensures forall xs, x :: xs != [] && missing == xs + [x] ==>
              MissingMessage(missing) == MessagePrefix + Join(xs, ", ") + ", " + x + MessageSuffix
    ensures |MessageSuffix| <= |MissingMessage(missing)| &&
            MissingMessage(missing)[|MissingMessage(missing)| - |MessageSuffix|..] == MessageSuffix
  {
    var m := MissingMessage(missing);
    var j := Join(missing, ", ");
    assert m == MessagePrefix + j + MessageSuffix;
    JoinHoldsParts(missing, ", ");
    forall n | n in missing ensures Contains(m, n) {
      var i :| 0 <= i < |missing| && missing[i] == n;
      ContainsIff(j, n);
      var k :| OccursAt(j, n, k);
      assert m[|MessagePrefix| + k..|MessagePrefix| + k + |n|] == j[k..k + |n|];
      assert OccursAt(m, n, |MessagePrefix| + k);
      ContainsIff(m, n);
    }
    forall xs, x | xs != [] && missing == xs + [x]
      ensures m == MessagePrefix + Join(xs, ", ") + ", " + x + MessageSuffix
    {
      JoinAppend(xs, x, ", ");
    }
  }

  /** `validateEnvironment`: the configuration, or the error it throws. */
  function ValidateEnvironment(env: Env): (r: Result<EnvironmentConfig>)
    ensures r.Ok? <==> MissingVars(ReadConfig(env)) == []
    ensures r.Ok? ==> r.value == ReadConfig(env)
    ensures r.Err? ==> r.message == MissingMessage(MissingVars(ReadConfig(env)))
  {
    var c := ReadConfig(env);
    var missing := MissingVars(c);
    if |missing| > 0 then Err(MissingMessage(missing)) else Ok(c)
  }

  lemma {:induction false} NoneMissingIff(entries: seq<Entry>)
    ensures MissingFirebase(entries) == [] <==> forall i :: 0 <= i < |entries| ==> !IsMissing(entries[i].value)
    ensures MissingJSearch(entries) == [] <==> forall i :: 0 <= i < |entries| ==> !IsMissing(entries[i].value)
    decreases |entries|
  {
    if entries != [] {
      NoneMissingIff(entries[1..]);
      assert forall i :: 1 <= i < |entries| ==> entries[i] == entries[1..][i - 1];
    }
  }

  lemma NoneBlankIff(f: seq<Entry>, j: seq<Entry>)
    ensures MissingFirebase(f) + MissingJSearch(j) == [] <==>
            forall i :: 0 <= i < |f + j| ==> !IsBlank((f + j)[i].value)
  {
    var all := f + j;
    NoneMissingIff(f);
    NoneMissingIff(j);
    forall i | 0 <= i < |all| ensures IsMissing(all[i].value) <==> IsBlank(all[i].value) {
      IsMissingIff(all[i].value);
    }
    assert forall i :: 0 <= i < |f| ==> all[i] == f[i];
    assert forall i :: 0 <= i < |j| ==> all[|f| + i] == j[i];
  }

  /** Validation succeeds exactly when no setting it reads is blank. */
  lemma ValidateOkIff(env: Env)
    ensures var all := FirebaseEntries(ReadConfig(env).firebase) + JSearchEntries(ReadConfig(env).jsearch);
            ValidateEnvironment(env).Ok? <==> forall i :: 0 <= i < |all| ==> !IsBlank(all[i].value)
  {
    var c := ReadConfig(env);
    NoneBlankIff(FirebaseEntries(c.firebase), JSearchEntries(c.jsearch));
  }

  /** An unset or empty host falls back to the default, which is never
      missing; a non-empty host of whitespace only is kept, and is reported
      as missing. */
  lemma HostDefault(env: Env)
    ensures Lookup(env, "VITE_JSEARCH_API_HOST") == "" ==>
              ReadConfig(env).jsearch.apiHost == DefaultApiHost && !IsMissing(ReadConfig(env).jsearch.apiHost)
    ensures IsBlank(Lookup(env, "VITE_JSEARCH_API_HOST")) && Lookup(env, "VITE_JSEARCH_API_HOST") != "" ==>
              ReadConfig(env).jsearch.apiHost == Lookup(env, "VITE_JSEARCH_API_HOST") &&
              JSearchName("apiHost") in MissingVars(ReadConfig(env))
  {
    var c := ReadConfig(env);
    var h := Lookup(env, "VITE_JSEARCH_API_HOST");
    if h == "" {
      IsMissingIff(DefaultApiHost);
      assert !IsJsWhitespace(DefaultApiHost[0]);
    }
    if IsBlank(h) && h != "" {
      IsMissingIff(h);
      var entries := JSearchEntries(c.jsearch);
      assert entries[1] == Entry("apiHost", h);
      assert entries[1] in entries;
      assert JSearchName("apiHost") in MissingJSearch(entries);
    }
  }

  /** The names the check reports for Firebase are not the names it reads:
      `apiKey` is reported as VITE_FIREBASE_APIKEY although the variable read
      is VITE_FIREBASE_API_KEY, and likewise for every other Firebase setting. */
  lemma FirebaseNamesDifferFromRead()
    ensures FirebaseName("apiKey") != "VITE_FIREBASE_API_KEY"
    ensures FirebaseName("authDomain") != "VITE_FIREBASE_AUTH_DOMAIN"
    ensures FirebaseName("projectId") != "VITE_FIREBASE_PROJECT_ID"
    ensures FirebaseName("storageBucket") != "VITE_FIREBASE_STORAGE_BUCKET"
    ensures FirebaseName("messagingSenderId") != "VITE_FIREBASE_MESSAGING_SENDER_ID"
    ensures FirebaseName("appId") != "VITE_FIREBASE_APP_ID"
    ensures FirebaseName("measurementId") != "VITE_FIREBASE_MEASUREMENT_ID"
  {
    assert |FirebaseName("apiKey")| == 20;
    assert |FirebaseName("authDomain")| == 24;
    assert |FirebaseName("projectId")| == 23;
    assert |FirebaseName("storageBucket")| == 27;
    assert |FirebaseName("messagingSenderId")| == 31;
    assert |FirebaseName("appId")| == 19;
    assert |FirebaseName("measurementId")| == 27;
  }

  /** What `logEnvironmentStatus` reports; it never throws. */
  datatype Status =
    | Configured(projectId: string, authDomain: string, apiHost: string, apiKeyShown: string)
    | ConfigurationError(message: string)

  function LogEnvironmentStatus(env: Env): (r: Status)
    ensures r.ConfigurationError? <==> ValidateEnvironment(env).Err?
    ensures r.ConfigurationError? ==> r.message == ValidateEnvironment(env).message
  {
    match ValidateEnvironment(env)
    case Ok(c) =>
      Configured(c.firebase.projectId, c.firebase.authDomain, c.jsearch.apiHost,
                 if c.jsearch.apiKey != "" then "***configured***" else "MISSING")
    case Err(msg) => ConfigurationError(msg)
  }

  /** The "MISSING" marker can never be logged: a configuration that passed
      validation has a non-blank key. */
  lemma StatusNeverShowsMissingKey(env: Env)
    ensures LogEnvironmentStatus(env).Configured? ==> LogEnvironmentStatus(env).apiKeyShown == "***configured***"
  {
    var c := ReadConfig(env);
    if ValidateEnvironment(env).Ok? {
      ValidateOkIff(env);
      assert (FirebaseEntries(c.firebase) + JSearchEntries(c.jsearch))[7] == Entry("apiKey", c.jsearch.apiKey);
    }
  }
}
