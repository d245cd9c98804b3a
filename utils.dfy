/**
 * The pure helpers of utils.js: the private-key check, the classifier that
 * turns ledger error messages into operator messages, and the start-up check
 * of the environment variables.
 */
module Utils {
  import opened Wrappers

  // ---------------------------------------------------------------------
  // Strings
  // ---------------------------------------------------------------------

  predicate StartsWith(s: string, prefix: string) {
    |prefix| <= |s| && s[..|prefix|] == prefix
  }

  /** p occurs in s starting at position i. */
  predicate OccursAt(s: string, p: string, i: int) {
    0 <= i <= |s| - |p| && s[i..i + |p|] == p
  }

  /** JavaScript's `s.includes(p)`: p occurs somewhere in s. */
  function Contains(s: string, p: string): (r: bool)
    ensures r <==> exists i :: OccursAt(s, p, i)
    decreases |s|
  {
    if |s| < |p| then false
    else if s[..|p|] == p then assert OccursAt(s, p, 0); true
    else
      var r := Contains(s[1..], p);
      assert r ==> exists i :: OccursAt(s, p, i) by {
        if r {
          var i :| OccursAt(s[1..], p, i);
          assert s[i + 1..i + 1 + |p|] == s[1..][i..i + |p|];
          assert OccursAt(s, p, i + 1);
        }
      }
      assert (exists i :: OccursAt(s, p, i)) ==> r by {
        if exists i :: OccursAt(s, p, i) {
          var i :| OccursAt(s, p, i);
          assert i != 0;
          assert s[1..][i - 1..i - 1 + |p|] == s[i..i + |p|];
          assert OccursAt(s[1..], p, i - 1);
        }
      }
      r
  }

  // ---------------------------------------------------------------------
  // isValidPrivateKey
  // ---------------------------------------------------------------------

  /** A character of the regular-expression class [a-fA-F0-9]. */
  predicate IsHexDigit(c: char) {
    ('0' <= c <= '9') || ('a' <= c <= 'f') || ('A' <= c <= 'F')
  }

  function AllHex(s: string): (r: bool)
    ensures r <==> forall i :: 0 <= i < |s| ==> IsHexDigit(s[i])
  {
    if s == [] then true
    else IsHexDigit(s[0]) && AllHex(s[1..])
  }

  /** The key with a `0x` prefix added unless it already has one. */
  function NormaliseKey(key: string): (r: string)
    ensures StartsWith(r, "0x")
    ensures StartsWith(key, "0x") ==> r == key
    ensures !StartsWith(key, "0x") ==> r == "0x" + key
  {
    if StartsWith(key, "0x") then key else "0x" + key
  }

  /** The test `/^0x[a-fA-F0-9]{64}$/` on a string (JavaScript's `$` without
      the multiline flag matches only at the very end of the input). */
  predicate MatchesKeyPattern(s: string) {
    |s| == 66 && s[..2] == "0x" && AllHex(s[2..])
  }

  /** isValidPrivateKey: the normalised key has length 66 and matches the pattern. */
  predicate IsValidPrivateKey(privateKey: string) {
    var key := NormaliseKey(privateKey);
    |key| == 66 && MatchesKeyPattern(key)
  }

  /** The characterisation of valid keys on the raw input: either 64 hex
      digits, or `0x` followed by 64 hex digits. Every other length, and every
      non-hex character after the optional prefix, is rejected. */
  lemma {:induction false} ValidPrivateKeyShape(k: string)
    ensures IsValidPrivateKey(k) <==>
      (|k| == 64 && forall i :: 0 <= i < 64 ==> IsHexDigit(k[i])) ||
      (|k| == 66 && k[..2] == "0x" && forall i :: 2 <= i < 66 ==> IsHexDigit(k[i]))
    ensures IsValidPrivateKey(k) ==> |k| == 64 || |k| == 66
  {
    var key := NormaliseKey(k);
    if StartsWith(k, "0x") {
      assert key == k;
      if |k| == 64 {
        assert k[1] == 'x' && !IsHexDigit(k[1]);
      }
      if |k| == 66 {
        assert forall i :: 2 <= i < 66 ==> k[2..][i - 2] == k[i];
      }
    } else {
      assert key == "0x" + k;
      assert key[2..] == k;
      if |k| == 66 {
        assert |key| == 68;
        assert k[..2] != "0x";
      }
    }
  }

  /** Adding the `0x` prefix does not change the verdict. */
  lemma PrefixDoesNotMatter(k: string)
    requires !StartsWith(k, "0x")
    ensures IsValidPrivateKey(k) == IsValidPrivateKey("0x" + k)
  {
    assert ("0x" + k)[..2] == "0x";
  }

  // ---------------------------------------------------------------------
  // handleWeb3Error
  // ---------------------------------------------------------------------

  /** The substrings handleWeb3Error looks for, in the order it tests them,
      each with the message it returns when that substring is found. */
  const Web3ErrorPatterns: seq<(string, string)> := [
    ("insufficient funds", "Unzureichende ETH für Gas-Gebühren"),
    ("nonce too low", "Nonce-Fehler: Transaktion bereits verarbeitet"),
    ("gas price too low", "Gas-Preis zu niedrig"),
    ("exceeds allowance", "Unzureichende Token-Berechtigung"),
    ("transfer amount exceeds balance", "Unzureichende Token-Balance")
  ]

  /** handleWeb3Error on the error's message: an if/else chain of substring tests. */
  function HandleWeb3Error(message: string): string {
    if Contains(message, "insufficient funds") then "Unzureichende ETH für Gas-Gebühren"
    else if Contains(message, "nonce too low") then "Nonce-Fehler: Transaktion bereits verarbeitet"
    else if Contains(message, "gas price too low") then "Gas-Preis zu niedrig"
    else if Contains(message, "exceeds allowance") then "Unzureichende Token-Berechtigung"
    else if Contains(message, "transfer amount exceeds balance") then "Unzureichende Token-Balance"
    else message
  }

  /** Pattern i is the first one, in table order, that occurs in the message. */
  predicate FirstMatchAt(message: string, patterns: seq<(string, string)>, i: int) {
    && 0 <= i < |patterns|
    && Contains(message, patterns[i].0)
    && forall j :: 0 <= j < i ==> !Contains(message, patterns[j].0)
  }

  /** Reference definition: the answer of the first pattern, in table order,
      that occurs in the message. */
  function FirstMatch(message: string, patterns: seq<(string, string)>): (r: Option<string>)
    ensures r.None? <==> forall i :: 0 <= i < |patterns| ==> !Contains(message, patterns[i].0)
    ensures r.Some? ==> exists i :: FirstMatchAt(message, patterns, i) && r.value == patterns[i].1
  {
    if patterns == [] then None
    else if Contains(message, patterns[0].0) then
      assert FirstMatchAt(message, patterns, 0);
      Some(patterns[0].1)
    else
      var r := FirstMatch(message, patterns[1..]);
      assert r.Some? ==> exists i :: FirstMatchAt(message, patterns, i) && r.value == patterns[i].1 by {
        if r.Some? {
          var i :| FirstMatchAt(message, patterns[1..], i) && r.value == patterns[1..][i].1;
          assert forall j :: 1 <= j < i + 1 ==> patterns[j] == patterns[1..][j - 1];
          assert FirstMatchAt(message, patterns, i + 1);
        }
      }
      assert r.None? <==> forall i :: 0 <= i < |patterns| ==> !Contains(message, patterns[i].0) by {
        assert forall i :: 1 <= i < |patterns| ==> patterns[i] == patterns[1..][i - 1];
      }
      r
  }

  /** The classifier returns the answer of the first pattern found, and the
      message itself when no pattern occurs. */
  lemma HandleWeb3ErrorIsFirstMatch(message: string)
    ensures HandleWeb3Error(message) ==
      match FirstMatch(message, Web3ErrorPatterns)
      case Some(answer) => answer
      case None => message
  {
    var p := Web3ErrorPatterns;
    if !Contains(message, p[0].0) {
      assert FirstMatch(message, p) == FirstMatch(message, p[1..]);
      if !Contains(message, p[1].0) {
        assert FirstMatch(message, p[1..]) == FirstMatch(message, p[2..]);
        if !Contains(message, p[2].0) {
          assert FirstMatch(message, p[2..]) == FirstMatch(message, p[3..]);
          if !Contains(message, p[3].0) {
            assert FirstMatch(message, p[3..]) == FirstMatch(message, p[4..]);
            assert p[4..][1..] == [];
          }
        }
      }
    }
  }

  /** A message that contains none of the patterns is passed through unchanged;
      one that contains some pattern is replaced by the fixed answer of the
      first pattern, in table order, that it contains. */
  lemma HandleWeb3ErrorPassThrough(message: string)
    ensures (forall i :: 0 <= i < |Web3ErrorPatterns| ==> !Contains(message, Web3ErrorPatterns[i].0)) ==>
      HandleWeb3Error(message) == message
    ensures (exists i :: 0 <= i < |Web3ErrorPatterns| && Contains(message, Web3ErrorPatterns[i].0)) ==>
      exists i :: 0 <= i < |Web3ErrorPatterns| && HandleWeb3Error(message) == Web3ErrorPatterns[i].1
    ensures forall i :: FirstMatchAt(message, Web3ErrorPatterns, i) ==> HandleWeb3Error(message) == Web3ErrorPatterns[i].1
  {
    HandleWeb3ErrorIsFirstMatch(message);
    forall i | FirstMatchAt(message, Web3ErrorPatterns, i)
      ensures HandleWeb3Error(message) == Web3ErrorPatterns[i].1
    {
      var r := FirstMatch(message, Web3ErrorPatterns);
      assert r.Some?;
      var j :| FirstMatchAt(message, Web3ErrorPatterns, j) && r.value == Web3ErrorPatterns[j].1;
      FirstMatchAtUnique(message, Web3ErrorPatterns, i, j);
    }
  }

  /** At most one pattern is the first to occur. */
  lemma FirstMatchAtUnique(message: string, patterns: seq<(string, string)>, i: int, j: int)
    requires FirstMatchAt(message, patterns, i) && FirstMatchAt(message, patterns, j)
    ensures i == j
  {
  }

  // ---------------------------------------------------------------------
  // validateEnvironmentVariables
  // ---------------------------------------------------------------------

  /** The variables that must be present, in the order they are reported. */
  const RequiredVariables: seq<string> := ["RPC_URL", "PRIVATE_KEY", "TOKEN_CONTRACT_ADDRESS"]

  /** `process.env[name]`, with an absent variable read as the empty string. */
  function Lookup(env: map<string, string>, name: string): string {
    if name in env then env[name] else ""
  }

  /** `process.env[name]` is truthy: present and not the empty string. */
  predicate IsSet(env: map<string, string>, name: string) {
    Lookup(env, name) != ""
  }

  /** The reasons validateEnvironmentVariables throws, in its order of checks. */
  datatype EnvError =
    | MissingVariables(names: seq<string>)
    | InvalidPrivateKey
    | InvalidTokenAddress
    | MissingGoogleAuth
    | MissingSpreadsheetId
  {
    /** The message of the thrown error. */
    function Message(): string {
      match this
      case MissingVariables(names) => "Fehlende Umgebungsvariablen: " + Join(names, ", ")
      case InvalidPrivateKey => "Ungültiger Private Key in PRIVATE_KEY Umgebungsvariable"
      case InvalidTokenAddress => "Ungültige Token-Adresse in TOKEN_CONTRACT_ADDRESS Umgebungsvariable"
      case MissingGoogleAuth =>
        "Google Sheets Authentifizierung fehlt: GOOGLE_SERVICE_ACCOUNT_JSON oder GOOGLE_API_KEY erforderlich"
      case MissingSpreadsheetId => "GOOGLE_SPREADSHEET_ID Umgebungsvariable ist erforderlich"
    }
  }

  /** JavaScript's `parts.join(separator)`. */
  function Join(parts: seq<string>, separator: string): string {
    if parts == [] then ""
    else if |parts| == 1 then parts[0]
    else parts[0] + separator + Join(parts[1..], separator)
  }

  /** `names.filter(n => !process.env[n])`. */
  function Unset(env: map<string, string>, names: seq<string>): (r: seq<string>)
    ensures |r| <= |names|
    ensures forall n :: n in r <==> n in names && !IsSet(env, n)
  {
    if names == [] then []
    else
      var rest := Unset(env, names[1..]);
      assert names == [names[0]] + names[1..];
      assert forall n :: n in names <==> n == names[0] || n in names[1..];
      var r := if IsSet(env, names[0]) then rest else [names[0]] + rest;
      assert forall n :: n in r <==> n in names && !IsSet(env, n);
      r
  }

  /** The error list names the missing variables in the fixed order
      RPC_URL, PRIVATE_KEY, TOKEN_CONTRACT_ADDRESS. */
  lemma MissingInOrder(env: map<string, string>)
    ensures Unset(env, RequiredVariables) ==
      (if IsSet(env, "RPC_URL") then [] else ["RPC_URL"]) +
      (if IsSet(env, "PRIVATE_KEY") then [] else ["PRIVATE_KEY"]) +
      (if IsSet(env, "TOKEN_CONTRACT_ADDRESS") then [] else ["TOKEN_CONTRACT_ADDRESS"])
  {
    var rs := RequiredVariables;
    assert rs[1..] == ["PRIVATE_KEY", "TOKEN_CONTRACT_ADDRESS"];
    assert rs[1..][1..] == ["TOKEN_CONTRACT_ADDRESS"];
    assert rs[1..][1..][1..] == [];
    assert Unset(env, rs[1..][1..]) ==
      (if IsSet(env, "TOKEN_CONTRACT_ADDRESS") then [] else ["TOKEN_CONTRACT_ADDRESS"]);
    assert Unset(env, rs[1..]) ==
      (if IsSet(env, "PRIVATE_KEY") then [] else ["PRIVATE_KEY"]) + Unset(env, rs[1..][1..]);
  }

  /** Everything validateEnvironmentVariables asks of the environment, as one
      condition. `isAddress` stands for Web3.utils.isAddress. */
  predicate EnvironmentComplete(env: map<string, string>, isAddress: string -> bool) {
    && (forall n :: n in RequiredVariables ==> IsSet(env, n))
    && IsValidPrivateKey(Lookup(env, "PRIVATE_KEY"))
    && isAddress(Lookup(env, "TOKEN_CONTRACT_ADDRESS"))
    && (IsSet(env, "GOOGLE_SERVICE_ACCOUNT_JSON") || IsSet(env, "GOOGLE_API_KEY"))
    && IsSet(env, "GOOGLE_SPREADSHEET_ID")
  }

  /** validateEnvironmentVariables: the first failing check, in the source's order. */
  function ValidateEnvironmentVariables(env: map<string, string>, isAddress: string -> bool): (r: Outcome<EnvError>)
    ensures r.Pass? <==> EnvironmentComplete(env, isAddress)
    ensures r.Fail? && r.error.MissingVariables? ==>
      r.error.names != [] &&
      forall n :: n in r.error.names <==> n in RequiredVariables && !IsSet(env, n)
  {
    var missing := Unset(env, RequiredVariables);
    if |missing| > 0 then
      assert missing[0] in missing;
      Fail(MissingVariables(missing))
    else if !IsValidPrivateKey(Lookup(env, "PRIVATE_KEY")) then Fail(InvalidPrivateKey)
    else if !isAddress(Lookup(env, "TOKEN_CONTRACT_ADDRESS")) then Fail(InvalidTokenAddress)
    else if !IsSet(env, "GOOGLE_SERVICE_ACCOUNT_JSON") && !IsSet(env, "GOOGLE_API_KEY") then Fail(MissingGoogleAuth)
    else if !IsSet(env, "GOOGLE_SPREADSHEET_ID") then Fail(MissingSpreadsheetId)
    else Pass
  }

  /** The precedence of the checks: each error is reported exactly when its own
      condition fails and every earlier one held. */
  lemma {:induction false} EnvironmentPrecedence(env: map<string, string>, isAddress: string -> bool)
    ensures
      var r := ValidateEnvironmentVariables(env, isAddress);
      var allSet := forall n :: n in RequiredVariables ==> IsSet(env, n);
      && (r.Fail? && r.error.MissingVariables? <==> !allSet)
      && (r == Fail(InvalidPrivateKey) <==> allSet && !IsValidPrivateKey(Lookup(env, "PRIVATE_KEY")))
      && (r == Fail(InvalidTokenAddress) <==>
            allSet && IsValidPrivateKey(Lookup(env, "PRIVATE_KEY")) && !isAddress(Lookup(env, "TOKEN_CONTRACT_ADDRESS")))
      && (r == Fail(MissingGoogleAuth) <==>
            allSet && IsValidPrivateKey(Lookup(env, "PRIVATE_KEY")) && isAddress(Lookup(env, "TOKEN_CONTRACT_ADDRESS")) &&
            !IsSet(env, "GOOGLE_SERVICE_ACCOUNT_JSON") && !IsSet(env, "GOOGLE_API_KEY"))
      && (r == Fail(MissingSpreadsheetId) <==>
            allSet && IsValidPrivateKey(Lookup(env, "PRIVATE_KEY")) && isAddress(Lookup(env, "TOKEN_CONTRACT_ADDRESS")) &&
            (IsSet(env, "GOOGLE_SERVICE_ACCOUNT_JSON") || IsSet(env, "GOOGLE_API_KEY")) &&
            !IsSet(env, "GOOGLE_SPREADSHEET_ID"))
  {
    var missing := Unset(env, RequiredVariables);
    var allSet := forall n :: n in RequiredVariables ==> IsSet(env, n);
    if |missing| > 0 {
      assert missing[0] in missing;
    }
    if !allSet {
      var n :| n in RequiredVariables && !IsSet(env, n);
      assert n in missing;
    }
  }
}
