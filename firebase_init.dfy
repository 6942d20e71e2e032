/** The module-level setup of firebase/firebase-init.js: the configuration
    read from the environment is checked for its required values before the
    Firebase app, analytics and the Firestore handle are created. The SDK
    calls are abstract; sdkFailure says which of them throws, if any. */
module FirebaseInit {
  import opened Wrappers

  /** The firebaseConfig object: a key is present with a non-empty string, or
      absent (the environment variable is undefined). */
  type Config = map<string, string>

  const RequiredKeys: seq<string> := ["apiKey", "authDomain", "projectId", "messagingSenderId", "appId"]

  /** !firebaseConfig[key] */
  predicate Falsy(config: Config, key: string) {
    key !in config || config[key] == ""
  }

  /** keys.filter((key) => !firebaseConfig[key]) */
  function MissingFrom(config: Config, keys: seq<string>): (r: seq<string>)
    ensures |r| <= |keys|
    decreases |keys|
  {
    if |keys| == 0 then []
    else if Falsy(config, keys[0]) then [keys[0]] + MissingFrom(config, keys[1..])
    else MissingFrom(config, keys[1..])
  }

  /** The required keys whose values are falsy, in the required order. */
  function MissingKeys(config: Config): (r: seq<string>)
    ensures |r| <= |RequiredKeys|
    ensures forall k :: k in r <==> k in RequiredKeys && Falsy(config, k)
    ensures InOrderWithin(r, RequiredKeys)
  {
    MissingFromMembers(config, RequiredKeys);
    MissingFromOrder(config, RequiredKeys);
    MissingFrom(config, RequiredKeys)
  }

  /** A key is reported exactly when it is one of the keys and its value is falsy. */
  lemma {:induction false} MissingFromMembers(config: Config, keys: seq<string>)
    ensures forall k :: k in MissingFrom(config, keys) <==> k in keys && Falsy(config, k)
    decreases |keys|
  {
    if |keys| > 0 {
      MissingFromMembers(config, keys[1..]);
      assert keys == [keys[0]] + keys[1..];
    }
  }

  /** a is b with some elements dropped, the rest kept in order. */
  predicate InOrderWithin(a: seq<string>, b: seq<string>)
    decreases |b|
  {
    if |a| == 0 then true
    else if |b| == 0 then false
    else if a[0] == b[0] then InOrderWithin(a[1..], b[1..])
    else InOrderWithin(a, b[1..])
  }

  /** The reported keys keep the order of the list they are taken from. */
  lemma {:induction false} MissingFromOrder(config: Config, keys: seq<string>)
    ensures InOrderWithin(MissingFrom(config, keys), keys)
    decreases |keys|
  {
    if |keys| > 0 {
      MissingFromOrder(config, keys[1..]);
      var rest := MissingFrom(config, keys[1..]);
      if |rest| > 0 {
        MissingFromMembers(config, keys[1..]);
        assert rest[0] in rest;
      }
      assert ([keys[0]] + rest)[1..] == rest;
    }
  }

  /** Nothing is missing exactly when every required key has a value. */
  lemma NoneMissing(config: Config)
    ensures MissingKeys(config) == [] <==> forall k :: k in RequiredKeys ==> !Falsy(config, k)
  {
    MissingFromMembers(config, RequiredKeys);
    if MissingKeys(config) != [] {
      assert MissingKeys(config)[0] in MissingKeys(config);
    }
  }

  /** storageBucket and measurementId are not required: whatever their values,
      the missing list is the same. */
  lemma OptionalKeysIgnored(config: Config, key: string, value: Option<string>)
    requires key == "storageBucket" || key == "measurementId"
    ensures MissingKeys(if value.Some? then config[key := value.value] else config - {key}) == MissingKeys(config)
  {
    OnlyRequiredMatter(config, if value.Some? then config[key := value.value] else config - {key}, RequiredKeys);
  }

  lemma {:induction false} OnlyRequiredMatter(c1: Config, c2: Config, keys: seq<string>)
    requires forall k :: k in keys ==> (Falsy(c1, k) <==> Falsy(c2, k))
    ensures MissingFrom(c1, keys) == MissingFrom(c2, keys)
    decreases |keys|
  {
    if |keys| > 0 {
      assert keys[0] in keys;
      assert forall k :: k in keys[1..] ==> k in keys;
      OnlyRequiredMatter(c1, c2, keys[1..]);
    }
  }

  /** missingKeys.join(", ") */
  function JoinNames(names: seq<string>): (r: string)
    ensures |names| == 0 ==> r == ""
    ensures |names| == 1 ==> r == names[0]
    ensures |names| > 1 ==> names[0] + ", " <= r
    ensures |names| > 0 ==> EndsWith(r, names[|names| - 1])
    decreases |names|
  {
    if |names| == 0 then ""
    else if |names| == 1 then names[0]
    else
      var tail := JoinNames(names[1..]);
      var r := names[0] + ", " + tail;
      assert r[|r| - |tail|..] == tail;
      r
  }

  predicate EndsWith(s: string, suffix: string) {
    |suffix| <= |s| && s[|s| - |suffix|..] == suffix
  }

  function MissingMessage(config: Config): (m: string)
    ensures "Missing Firebase configuration values: " <= m
  {
    "Missing Firebase configuration values: " + JoinNames(MissingKeys(config))
  }

  /** Which SDK call throws: none, initializeApp, getAnalytics or getFirestore. */
  datatype SdkFailure = NoFailure | InitializeAppFails | AnalyticsFails | FirestoreFails

  /** The error the catch block receives: the missing-configuration Error the
      module throws itself, or the exception of the SDK call that failed. */
  datatype InitError = MissingConfig(message: string) | SdkError(at: SdkFailure)

  const BannerText := "Firebase configuration error. Please check your environment variables."

  /** The exported bindings (whether app, analytics and db are set, not null),
      the error that was caught, if any, and the banner added to the page. */
  datatype Exports = Exports(app: bool, analytics: bool, db: bool, error: Option<InitError>, banner: Option<string>)

  /** The module's initialisation, statement by statement. */
  method Initialize(config: Config, isBrowser: bool, failure: SdkFailure) returns (e: Exports)
    ensures MissingKeys(config) != [] ==>
      !e.app && !e.analytics && !e.db && e.error == Some(MissingConfig(MissingMessage(config)))
    ensures MissingKeys(config) == [] ==> e.app == (failure != InitializeAppFails)
    ensures MissingKeys(config) == [] ==> (e.analytics <==> isBrowser && failure != InitializeAppFails && failure != AnalyticsFails)
    ensures MissingKeys(config) == [] ==> (e.db <==> isBrowser && failure == NoFailure)
    ensures MissingKeys(config) == [] && e.error.Some? ==> e.error == Some(SdkError(failure))
    ensures !isBrowser ==> !e.analytics && !e.db
    ensures e.db ==> e.app && e.analytics
    ensures e.error.None? <==> MissingKeys(config) == [] && (failure == NoFailure || (!isBrowser && failure != InitializeAppFails))
    ensures e.banner == (if e.error.Some? && isBrowser then Some(BannerText) else None)
  {
    var app, analytics, db := false, false, false;
    var error: Option<InitError> := None;
    var missing := MissingKeys(config);
    if |missing| > 0 {
      error := Some(MissingConfig(MissingMessage(config)));
    } else if failure == InitializeAppFails {
      error := Some(SdkError(failure));
    } else {
      app := true;
      if isBrowser {
        if failure == AnalyticsFails {
          error := Some(SdkError(failure));
        } else {
          analytics := true;
          if failure == FirestoreFails {
            error := Some(SdkError(failure));
          } else {
            db := true;
          }
        }
      }
    }
    var banner := if error.Some? && isBrowser then Some(BannerText) else None;
    e := Exports(app, analytics, db, error, banner);
  }

  /** The capture modal works (app and db both set) exactly when every
      required value is present, the code runs in a browser and no SDK call fails. */
  lemma ReadyForCapture(config: Config, isBrowser: bool, failure: SdkFailure, e: Exports)
    requires MissingKeys(config) != [] ==> !e.app && !e.db
    requires MissingKeys(config) == [] ==> e.app == (failure != InitializeAppFails)
    requires MissingKeys(config) == [] ==> (e.db <==> isBrowser && failure == NoFailure)
    ensures e.app && e.db <==> (forall k :: k in RequiredKeys ==> !Falsy(config, k)) && isBrowser && failure == NoFailure
  {
    NoneMissing(config);
  }
}
