/** Normalisation of the options handed to the `Couchdb` constructor into
    the connection settings the transport keeps for its lifetime. */
module Config {
  import opened Values

  /** The options object as the constructor reads it; a property the caller
      did not set is `Undefined`. */
  datatype Options = Options(
    db: Value,
    database: Value,
    host: Value,
    port: Value,
    auth: Value,
    ssl: Value,
    secure: Value,
    user: Value,
    pass: Value)

  /** What `options || {}` yields when the caller passes no options at all. */
  const NoOptions := Options(Undefined, Undefined, Undefined, Undefined, Undefined,
                             Undefined, Undefined, Undefined, Undefined)

  const DefaultDb := Str("winston")
  const DefaultHost := Str("localhost")
  const DefaultPort := Num(5984)

  /** The settings fixed at construction. */
  datatype Settings = Settings(
    name: string,
    db: Value,
    host: Value,
    port: Value,
    auth: Value,
    secure: bool)

  /** Case folding of the regular-expression `i` flag outside unicode mode:
      only ASCII letters fold onto ASCII letters. */
  function LowerAscii(c: char): (r: char)
    ensures 'A' <= c <= 'Z' ==> r as int == c as int + 32
    ensures !('A' <= c <= 'Z') ==> r == c
  {
    if 'A' <= c <= 'Z' then (c as int + 32) as char else c
  }

  /** `s` begins with `prefix`, letters compared without regard to case. */
  predicate StartsWithIgnoringCase(s: string, prefix: string): (r: bool)
    ensures r ==> |s| >= |prefix| && (prefix != [] ==> LowerAscii(s[0]) == LowerAscii(prefix[0]))
    ensures prefix == [] ==> r
  {
    prefix == [] ||
    (s != [] && LowerAscii(s[0]) == LowerAscii(prefix[0]) &&
     StartsWithIgnoringCase(s[1..], prefix[1..]))
  }

  /** The characterisation of the recursive test: the first `|prefix|`
      characters of `s` agree with `prefix` character by character. */
  lemma {:induction false} StartsWithIgnoringCaseAt(s: string, prefix: string)
    ensures StartsWithIgnoringCase(s, prefix) <==>
            |s| >= |prefix| &&
            forall i :: 0 <= i < |prefix| ==> LowerAscii(s[i]) == LowerAscii(prefix[i])
  {
    if prefix != [] && s != [] {
      StartsWithIgnoringCaseAt(s[1..], prefix[1..]);
      if StartsWithIgnoringCase(s, prefix) {
        forall i | 0 <= i < |prefix|
          ensures LowerAscii(s[i]) == LowerAscii(prefix[i])
        {
          if i > 0 { assert s[1..][i - 1] == s[i] && prefix[1..][i - 1] == prefix[i]; }
        }
      } else if |s| >= |prefix| && LowerAscii(s[0]) == LowerAscii(prefix[0]) {
        var j :| 0 <= j < |prefix| - 1 && LowerAscii(s[1..][j]) != LowerAscii(prefix[1..][j]);
        assert LowerAscii(s[j + 1]) != LowerAscii(prefix[j + 1]);
      }
    }
  }

  /** The test is blind to the case of the tested text: upper-casing ASCII
      letters of the host does not change whether it names an https URL. */
  lemma {:induction false} StartsWithIgnoringCaseFolds(s: string, t: string, prefix: string)
    requires |s| == |t|
    requires forall i :: 0 <= i < |s| ==> LowerAscii(s[i]) == LowerAscii(t[i])
    ensures StartsWithIgnoringCase(s, prefix) <==> StartsWithIgnoringCase(t, prefix)
  {
    StartsWithIgnoringCaseAt(s, prefix);
    StartsWithIgnoringCaseAt(t, prefix);
  }

  /** `/^https:/i.test(host)`. A host that is not a string converts to a
      text (a number, `true`, `[object Object]`, ...) that never starts with
      `https:`, so only strings can match. */
  predicate IsHttpsUrl(host: Value): (r: bool)
    ensures r <==> host.Str? && |host.s| >= 6 &&
                   LowerAscii(host.s[0]) == 'h' && LowerAscii(host.s[1]) == 't' &&
                   LowerAscii(host.s[2]) == 't' && LowerAscii(host.s[3]) == 'p' &&
                   LowerAscii(host.s[4]) == 's' && host.s[5] == ':'
  {
    if host.Str? then
      StartsWithIgnoringCaseAt(host.s, "https:");
      StartsWithIgnoringCase(host.s, "https:")
    else false
  }

  /** The constructor's normalisation of its options. */
  function Configure(options: Options): (c: Settings)
    ensures c.name == "couchdb"
    // db: options.db, else options.database, else 'winston'
    ensures Truthy(options.db) ==> c.db == options.db
    ensures !Truthy(options.db) && Truthy(options.database) ==> c.db == options.database
    ensures !Truthy(options.db) && !Truthy(options.database) ==> c.db == DefaultDb
    // host and port default when falsy
    ensures c.host == (if Truthy(options.host) then options.host else DefaultHost)
    ensures c.port == (if Truthy(options.port) then options.port else DefaultPort)
    // every connection parameter that has a default ends up truthy
    ensures Truthy(c.db) && Truthy(c.host) && Truthy(c.port)
    // the transport is secure exactly for an https host or a truthy ssl/secure flag
    ensures c.secure <==> IsHttpsUrl(c.host) || Truthy(options.ssl) || Truthy(options.secure)
    // the legacy user/pass pair overrides auth
    ensures Truthy(options.user) ==>
              c.auth == Obj(map["username" := options.user, "password" := Or(options.pass, Str(""))])
    ensures !Truthy(options.user) ==> c.auth == options.auth
  {
    var host := Or(options.host, DefaultHost);
    Settings(
      name := "couchdb",
      db := Or(Or(options.db, options.database), DefaultDb),
      host := host,
      port := Or(options.port, DefaultPort),
      auth := if Truthy(options.user)
              then Obj(map["username" := options.user, "password" := Or(options.pass, Str(""))])
              else options.auth,
      secure := IsHttpsUrl(host) || Truthy(Or(options.ssl, options.secure)))
  }

  /** The options that describe settings `c` directly. */
  function Reissue(c: Settings): Options {
    Options(c.db, Undefined, c.host, c.port, c.auth, Bool(c.secure), Undefined, Undefined, Undefined)
  }

  /** Normalisation is idempotent: constructing a transport from the
      settings another one ended up with reproduces those settings. */
  lemma ConfigureIdempotent(options: Options)
    ensures Configure(Reissue(Configure(options))) == Configure(options)
  {
  }

  /** With no options at all the transport talks to database `winston` on
      `localhost:5984`, without TLS and without credentials. */
  lemma ConfigureDefaults()
    ensures Configure(NoOptions) == Settings("couchdb", DefaultDb, DefaultHost, DefaultPort, Undefined, false)
  {
  }

  /** An `https:` host makes the transport secure whatever its case. */
  lemma HttpsHostIsSecure(options: Options, rest: string)
    requires options.host == Str("HTTPS:" + rest) || options.host == Str("https:" + rest)
    ensures Configure(options).secure
  {
    var s := options.host.s;
    assert s[..6] == "HTTPS:" || s[..6] == "https:";
    StartsWithIgnoringCaseAt(s, "https:");
  }
}
