/**
 Which fields are withheld, by how their names read: separators and other signs are skipped and capitals are
 read as small letters, however the program compares names.
 */
module RedactionNames {
  import opened Wrappers
  import opened Redaction
  import opened RedactionSecrecy

  // Reading a name

  predicate Sign(c: char)
  {
    'a' <= c <= 'z' || 'A' <= c <= 'Z' || '0' <= c <= '9'
  }

  /** The same letter, small or capital, or the same digit. */
  predicate SameSign(a: char, b: char)
  {
    || a == b
    || ('A' <= a <= 'Z' && b as int == a as int + 32)
    || ('A' <= b <= 'Z' && a as int == b as int + 32)
  }

  /** The name reads as the word when everything but letters and digits is skipped. */
  predicate Reads(name: string, word: string)
  {
    if name == [] then word == []
    else if Sign(name[0]) then word != [] && SameSign(name[0], word[0]) && Reads(name[1..], word[1..])
    else Reads(name[1..], word)
  }

  ghost predicate EndsReading(name: string, word: string)
  {
    exists i :: 0 <= i <= |name| && Reads(name[i..], word)
  }

  /** Two names that read alike. */
  predicate ReadAlike(name: string, other: string)
    decreases |name| + |other|
  {
    if name != [] && !Sign(name[0]) then ReadAlike(name[1..], other)
    else if other != [] && !Sign(other[0]) then ReadAlike(name, other[1..])
    else if name == [] || other == [] then name == other
    else SameSign(name[0], other[0]) && ReadAlike(name[1..], other[1..])
  }

  /** A word of small letters and digits. */
  predicate Plain(word: string)
  {
    forall i :: 0 <= i < |word| ==> 'a' <= word[i] <= 'z' || '0' <= word[i] <= '9'
  }

  lemma {:induction false} ReadsIsNormal(name: string, word: string)
    requires Plain(word)
    ensures Reads(name, word) <==> NormalizeKey(name) == word
  {
    if name != [] {
      if Sign(name[0]) {
        if word != [] {
          ReadsIsNormal(name[1..], word[1..]);
          assert word == [word[0]] + word[1..];
          assert NormalizeKey(name) == [Lower(name[0])] + NormalizeKey(name[1..]);
          assert NormalizeKey(name)[1..] == NormalizeKey(name[1..]);
        }
      } else {
        ReadsIsNormal(name[1..], word);
      }
    }
  }

  lemma {:induction false} NormalIsPlain(name: string)
    ensures Plain(NormalizeKey(name))
  {
    if name != [] {
      NormalIsPlain(name[1..]);
    }
  }

  lemma {:induction false} AlikeIsNormal(name: string, other: string)
    ensures ReadAlike(name, other) <==> NormalizeKey(name) == NormalizeKey(other)
    decreases |name| + |other|
  {
    if name != [] && !Sign(name[0]) {
      AlikeIsNormal(name[1..], other);
    } else if other != [] && !Sign(other[0]) {
      AlikeIsNormal(name, other[1..]);
    } else if name != [] && other != [] {
      AlikeIsNormal(name[1..], other[1..]);
      assert NormalizeKey(name) == [Lower(name[0])] + NormalizeKey(name[1..]);
      assert NormalizeKey(other) == [Lower(other[0])] + NormalizeKey(other[1..]);
      assert NormalizeKey(name)[1..] == NormalizeKey(name[1..]) && NormalizeKey(other)[1..] == NormalizeKey(other[1..]);
    }
  }

  lemma {:induction false} SuffixIsNormal(name: string, word: string)
    requires Plain(word)
    ensures EndsReading(name, word) <==> EndsWith(NormalizeKey(name), word)
  {
    ReadsIsNormal(name, word);
    if name == [] {
      assert name[0..] == name;
    } else {
      SuffixIsNormal(name[1..], word);
      ReadsFurther(name, word);
      EndsFurther(if Sign(name[0]) then [Lower(name[0])] else [], NormalizeKey(name[1..]), word);
    }
  }

  lemma ReadsFurther(name: string, word: string)
    requires name != []
    ensures EndsReading(name, word) <==> Reads(name, word) || EndsReading(name[1..], word)
  {
    assert name[0..] == name;
    if i :| 0 <= i <= |name[1..]| && Reads(name[1..][i..], word) {
      assert name[1..][i..] == name[i + 1..];
    }
    if i :| 0 < i <= |name| && Reads(name[i..], word) {
      assert name[1..][i - 1..] == name[i..];
    }
  }

  lemma EndsFurther(first: string, rest: string, word: string)
    requires |first| <= 1
    ensures EndsWith(first + rest, word) <==> first + rest == word || EndsWith(rest, word)
  {
    var all := first + rest;
    if |word| <= |rest| {
      assert all[|all| - |word|..] == rest[|rest| - |word|..];
    } else if |word| == |all| {
      assert all[0..] == all;
    }
  }

  // The lists, as the expressions of the source spell them

  const SECRET_WORDS: set<string> :=
    {"password", "passphrase", "secret", "apikey", "token", "privatekey", "credential", "credentials"}

  const LOCATED: set<string> := {"secret", "secrets", "credential", "credentials", "keychain"}

  const LOCATES: set<string> := {"ref", "reference", "id"}

  ghost predicate Locator(word: string)
  {
    exists what, how :: what in LOCATED && how in LOCATES && word == what + how
  }

  /** A name that ends in a word for a secret, or in one for a place where secrets are kept. */
  ghost predicate EndsInSecret(name: string)
  {
    exists word :: (word in SECRET_WORDS || Locator(word)) && EndsReading(name, word)
  }

  const HEADERS: set<string> := {"authorization", "proxyauthorization", "auth"}

  ghost predicate NamesHeader(name: string)
  {
    exists header :: header in HEADERS && (Reads(name, header) || Reads(name, header + "header"))
  }

  ghost predicate NamesEnvironment(name: string)
  {
    exists prefix, suffix ::
      prefix in {"", "process"} && suffix in {"", "variables"} && Reads(name, prefix + "environment" + suffix)
  }

  /** A header, a cookie, the environment or the OAuth state, by its whole name. */
  ghost predicate NamesCarrier(name: string)
  {
    || NamesHeader(name) || NamesEnvironment(name)
    || Reads(name, "cookie") || Reads(name, "setcookie") || Reads(name, "env") || Reads(name, "processenv")
    || Reads(name, "oauth")
  }

  ghost predicate NamesReasoning(name: string)
  {
    || Reads(name, "chainofthought") || Reads(name, "hiddenreasoning")
    || Reads(name, "internalreasoning") || Reads(name, "modelreasoning")
  }

  ghost predicate NamesBusiness(name: string)
  {
    exists word :: word in BUSINESS_CONTENT_KEYS && Reads(name, word)
  }

  ghost predicate NamesMetadata(name: string)
  {
    exists word :: word in SAFE_DIAGNOSTIC_TEXT_KEYS && Reads(name, word)
  }

  // They are the lists of the program

  lemma WordsListed()
    ensures forall word :: word in SECRET_WORDS ==> word in CREDENTIAL_SUFFIXES
  {
    assert CREDENTIAL_SUFFIXES[0] == "password";
    assert CREDENTIAL_SUFFIXES[1] == "passphrase";
    assert CREDENTIAL_SUFFIXES[2] == "secret";
    assert CREDENTIAL_SUFFIXES[3] == "apikey";
    assert CREDENTIAL_SUFFIXES[4] == "privatekey";
    assert CREDENTIAL_SUFFIXES[5] == "credential";
    assert CREDENTIAL_SUFFIXES[6] == "credentials";
    assert CREDENTIAL_SUFFIXES[7] == "token";
  }

  predicate Listed(i: nat, what: string, how: string)
  {
    i < |CREDENTIAL_SUFFIXES| && what in LOCATED && how in LOCATES && CREDENTIAL_SUFFIXES[i] == what + how
  }

  lemma ListedIsLocator(i: nat, what: string, how: string)
    requires Listed(i, what, how)
    ensures Locator(CREDENTIAL_SUFFIXES[i]) && Plain(CREDENTIAL_SUFFIXES[i])
  {
    assert Plain(what) && Plain(how);
  }

  lemma SecretLocators()
    ensures Listed(8, "secret", "ref") && Listed(9, "secret", "reference") && Listed(10, "secret", "id")
  {
    assert "secret" + "ref" == "secretref";
    assert "secret" + "reference" == "secretreference";
    assert "secret" + "id" == "secretid";
  }

  lemma SecretsLocators()
    ensures Listed(11, "secrets", "ref") && Listed(12, "secrets", "reference") && Listed(13, "secrets", "id")
  {
    assert "secrets" + "ref" == "secretsref";
    assert "secrets" + "reference" == "secretsreference";
    assert "secrets" + "id" == "secretsid";
  }

  lemma CredentialLocators()
    ensures Listed(14, "credential", "ref") && Listed(15, "credential", "reference") && Listed(16, "credential", "id")
  {
    assert "credential" + "ref" == "credentialref";
    assert "credential" + "reference" == "credentialreference";
    assert "credential" + "id" == "credentialid";
  }

  lemma CredentialsLocators()
    ensures Listed(17, "credentials", "ref") && Listed(18, "credentials", "reference") && Listed(19, "credentials", "id")
  {
    assert "credentials" + "ref" == "credentialsref";
    assert "credentials" + "reference" == "credentialsreference";
    assert "credentials" + "id" == "credentialsid";
  }

  lemma KeychainLocators()
    ensures Listed(20, "keychain", "ref") && Listed(21, "keychain", "reference") && Listed(22, "keychain", "id")
  {
    assert "keychain" + "ref" == "keychainref";
    assert "keychain" + "reference" == "keychainreference";
    assert "keychain" + "id" == "keychainid";
  }

  lemma LocatorsListed(what: string, how: string)
    requires what in LOCATED && how in LOCATES
    ensures what + how in CREDENTIAL_SUFFIXES
  {
    SecretLocators();
    SecretsLocators();
    CredentialLocators();
    CredentialsLocators();
    KeychainLocators();
    var k := (if what == "secret" then 8 else if what == "secrets" then 11 else if what == "credential" then 14
              else if what == "credentials" then 17 else 20) + (if how == "ref" then 0 else if how == "reference" then 1 else 2);
    assert Listed(k, what, how);
  }

  lemma WordsAreNamed(i: nat)
    requires i < 8
    ensures CREDENTIAL_SUFFIXES[i] in SECRET_WORDS && Plain(CREDENTIAL_SUFFIXES[i])
  {
  }

  function HowOf(i: nat): string
  {
    if i % 3 == 0 then "ref" else if i % 3 == 1 then "reference" else "id"
  }

  lemma SuffixesAreNamed(i: nat)
    requires i < |CREDENTIAL_SUFFIXES|
    ensures CREDENTIAL_SUFFIXES[i] in SECRET_WORDS || Locator(CREDENTIAL_SUFFIXES[i])
    ensures Plain(CREDENTIAL_SUFFIXES[i])
  {
    if i < 8 {
      WordsAreNamed(i);
    } else if i < 11 {
      SecretLocators();
      ListedIsLocator(i, "secret", HowOf(i - 8));
    } else if i < 14 {
      SecretsLocators();
      ListedIsLocator(i, "secrets", HowOf(i - 8));
    } else if i < 17 {
      CredentialLocators();
      ListedIsLocator(i, "credential", HowOf(i - 8));
    } else if i < 20 {
      CredentialsLocators();
      ListedIsLocator(i, "credentials", HowOf(i - 8));
    } else {
      KeychainLocators();
      ListedIsLocator(i, "keychain", HowOf(i - 8));
    }
  }

  lemma EndsInSecretListed(name: string)
    ensures EndsInSecret(name) <==>
            exists i :: 0 <= i < |CREDENTIAL_SUFFIXES| && EndsWith(NormalizeKey(name), CREDENTIAL_SUFFIXES[i])
  {
    WordsListed();
    if word :| (word in SECRET_WORDS || Locator(word)) && EndsReading(name, word) {
      if Locator(word) {
        var what, how :| what in LOCATED && how in LOCATES && word == what + how;
        LocatorsListed(what, how);
      }
      var i :| 0 <= i < |CREDENTIAL_SUFFIXES| && CREDENTIAL_SUFFIXES[i] == word;
      SuffixesAreNamed(i);
      SuffixIsNormal(name, word);
    }
    if i :| 0 <= i < |CREDENTIAL_SUFFIXES| && EndsWith(NormalizeKey(name), CREDENTIAL_SUFFIXES[i]) {
      SuffixesAreNamed(i);
      SuffixIsNormal(name, CREDENTIAL_SUFFIXES[i]);
    }
  }

  lemma HeaderIs(name: string, header: string)
    requires header in HEADERS
    ensures Reads(name, header) <==> NormalizeKey(name) == header
    ensures Reads(name, header + "header") <==> NormalizeKey(name) == header + "header"
  {
    ReadsIsNormal(name, header);
    ReadsIsNormal(name, header + "header");
  }

  const HEADER_NAMES: set<string> :=
    {"authorization", "authorizationheader", "proxyauthorization", "proxyauthorizationheader", "auth", "authheader"}

  lemma NamesHeaderListed(name: string)
    ensures NamesHeader(name) <==> NormalizeKey(name) in HEADER_NAMES
  {
    assert "authorization" + "header" == "authorizationheader";
    assert "proxyauthorization" + "header" == "proxyauthorizationheader";
    assert "auth" + "header" == "authheader";
    HeaderIs(name, "authorization");
    HeaderIs(name, "proxyauthorization");
    HeaderIs(name, "auth");
    assert "authorization" in HEADERS && "proxyauthorization" in HEADERS && "auth" in HEADERS;
  }

  const ENVIRONMENT_NAMES: set<string> :=
    {"environment", "processenvironment", "environmentvariables", "processenvironmentvariables"}

  lemma EnvironmentIs(name: string, prefix: string, suffix: string)
    requires prefix in {"", "process"} && suffix in {"", "variables"}
    ensures Reads(name, prefix + "environment" + suffix) <==> NormalizeKey(name) == prefix + "environment" + suffix
  {
    ReadsIsNormal(name, prefix + "environment" + suffix);
  }

  lemma EnvironmentCases(name: string)
    ensures NamesEnvironment(name) <==>
            || Reads(name, "" + "environment" + "") || Reads(name, "process" + "environment" + "")
            || Reads(name, "" + "environment" + "variables") || Reads(name, "process" + "environment" + "variables")
  {
  }

  lemma EnvironmentWords()
    ensures "" + "environment" + "" == "environment" && "process" + "environment" + "" == "processenvironment"
    ensures "" + "environment" + "variables" == "environmentvariables"
    ensures "process" + "environment" + "variables" == "processenvironmentvariables"
  {
  }

  lemma NamesEnvironmentListed(name: string)
    ensures NamesEnvironment(name) <==> NormalizeKey(name) in ENVIRONMENT_NAMES
  {
    EnvironmentCases(name);
    EnvironmentWords();
    EnvironmentIs(name, "", "");
    EnvironmentIs(name, "process", "");
    EnvironmentIs(name, "", "variables");
    EnvironmentIs(name, "process", "variables");
  }

  lemma CarrierNames(normal: string)
    ensures normal in CREDENTIAL_NAMES <==>
            || normal in HEADER_NAMES || normal in ENVIRONMENT_NAMES
            || normal == "cookie" || normal == "setcookie" || normal == "env" || normal == "processenv" || normal == "oauth"
  {
  }

  lemma NamesOthers(name: string)
    ensures Reads(name, "cookie") <==> NormalizeKey(name) == "cookie"
    ensures Reads(name, "setcookie") <==> NormalizeKey(name) == "setcookie"
    ensures Reads(name, "env") <==> NormalizeKey(name) == "env"
    ensures Reads(name, "processenv") <==> NormalizeKey(name) == "processenv"
    ensures Reads(name, "oauth") <==> NormalizeKey(name) == "oauth"
  {
    ReadsIsNormal(name, "cookie");
    ReadsIsNormal(name, "setcookie");
    ReadsIsNormal(name, "env");
    ReadsIsNormal(name, "processenv");
    ReadsIsNormal(name, "oauth");
  }

  lemma NamesCarrierListed(name: string)
    ensures NamesCarrier(name) <==> NormalizeKey(name) in CREDENTIAL_NAMES
  {
    NamesHeaderListed(name);
    NamesEnvironmentListed(name);
    NamesOthers(name);
    CarrierNames(NormalizeKey(name));
  }

  lemma ReasoningNames(normal: string)
    ensures normal in HIDDEN_REASONING_KEYS <==>
            normal == "chainofthought" || normal == "hiddenreasoning" || normal == "internalreasoning" || normal == "modelreasoning"
  {
  }

  lemma ReasoningIs(name: string, word: string)
    requires word in HIDDEN_REASONING_KEYS
    ensures Reads(name, word) <==> NormalizeKey(name) == word
  {
    ReadsIsNormal(name, word);
  }

  lemma NamesReasoningListed(name: string)
    ensures NamesReasoning(name) <==> NormalizeKey(name) in HIDDEN_REASONING_KEYS
  {
    ReasoningNames(NormalizeKey(name));
    ReasoningIs(name, "chainofthought");
    ReasoningIs(name, "hiddenreasoning");
    ReasoningIs(name, "internalreasoning");
    ReasoningIs(name, "modelreasoning");
  }

  lemma NamesListed(name: string, words: set<string>)
    requires forall word :: word in words ==> Plain(word)
    ensures (exists word :: word in words && Reads(name, word)) <==> NormalizeKey(name) in words
  {
    forall word | word in words
      ensures Reads(name, word) <==> NormalizeKey(name) == word
    {
      ReadsIsNormal(name, word);
    }
  }

  // What becomes of a field

  /** Options as a caller writes them: names of further sensitive fields, in any spelling. */
  function Configured(boundary: Boundary, declared: set<string>, clean: string -> Cleaned): Options
  {
    Options(boundary, set name | name in declared :: NormalizeKey(name), clean)
  }

  ghost predicate Declared(declared: set<string>, name: string)
  {
    exists d :: d in declared && ReadAlike(name, d)
  }

  /** Logs, errors and telemetry. */
  predicate ForDiagnosis(boundary: Boundary)
  {
    !boundary.ModelContext? && !boundary.Exports?
  }

  /** Why a field of this name is withheld at this boundary, by how the name reads. */
  ghost function Withheld(boundary: Boundary, declared: set<string>, name: string): Option<Reason>
  {
    if Declared(declared, name) || EndsInSecret(name) || NamesCarrier(name) then Some(CredentialField)
    else if NamesReasoning(name) then Some(HiddenReasoning)
    else if ForDiagnosis(boundary) && NamesBusiness(name) then Some(BusinessContent)
    else None
  }

  lemma DeclaredIs(boundary: Boundary, declared: set<string>, clean: string -> Cleaned, name: string)
    ensures Declared(declared, name) <==> NormalizeKey(name) in Configured(boundary, declared, clean).sensitive
  {
    forall d | d in declared
      ensures ReadAlike(name, d) <==> NormalizeKey(name) == NormalizeKey(d)
    {
      AlikeIsNormal(name, d);
    }
  }

  lemma CredentialIs(name: string)
    ensures EndsInSecret(name) || NamesCarrier(name) <==> CredentialKey(NormalizeKey(name))
  {
    EndsInSecretListed(name);
    NamesCarrierListed(name);
  }

  lemma NamesBusinessListed(name: string)
    ensures NamesBusiness(name) <==> NormalizeKey(name) in BUSINESS_CONTENT_KEYS
  {
    NamesListed(name, BUSINESS_CONTENT_KEYS);
  }

  lemma ShortMetadataIsPlain(word: string)
    requires word in SAFE_DIAGNOSTIC_TEXT_KEYS
    ensures |word| < 8 ==> Plain(word)
  {
  }

  lemma MiddleMetadataIsPlain(word: string)
    requires word in SAFE_DIAGNOSTIC_TEXT_KEYS
    ensures 8 <= |word| < 10 ==> Plain(word)
  {
  }

  lemma LongMetadataIsPlain(word: string)
    requires word in SAFE_DIAGNOSTIC_TEXT_KEYS
    ensures 10 <= |word| ==> Plain(word)
  {
  }

  lemma NamesMetadataListed(name: string)
    ensures NamesMetadata(name) <==> NormalizeKey(name) in SAFE_DIAGNOSTIC_TEXT_KEYS
  {
    forall word | word in SAFE_DIAGNOSTIC_TEXT_KEYS
      ensures Plain(word)
    {
      ShortMetadataIsPlain(word);
      MiddleMetadataIsPlain(word);
      LongMetadataIsPlain(word);
    }
    NamesListed(name, SAFE_DIAGNOSTIC_TEXT_KEYS);
  }

  lemma MaskIsWithheld(boundary: Boundary, declared: set<string>, clean: string -> Cleaned, name: string)
    ensures Mask(Configured(boundary, declared, clean), name) == Withheld(boundary, declared, name)
  {
    DeclaredIs(boundary, declared, clean, name);
    CredentialIs(name);
    NamesReasoningListed(name);
    NamesBusinessListed(name);
  }

  lemma TextAllowedIs(boundary: Boundary, declared: set<string>, clean: string -> Cleaned, name: string)
    ensures TextAllowed(Configured(boundary, declared, clean), name) <==> ForDiagnosis(boundary) && NamesMetadata(name)
  {
    NamesMetadataListed(name);
  }
}
