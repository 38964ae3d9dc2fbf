/** The set-up script's check of the environment file: both API keys must be present
    and must not still hold the template's placeholder. The file's content is a
    parameter (`None` when the file does not exist). */
module Setup {
  import opened Wrappers
  import opened Seqs
  import opened Text

  /** The keys the environment file must configure, in the order they are reported. */
  const RequiredKeys: seq<string> := ["GEMINI_API_KEY", "AVIATIONSTACK_API_KEY"]

  /** A key is missing when its placeholder assignment is still there or when it is
      never assigned at all. */
  predicate KeyMissing(content: string, key: string) {
    Contains(content, key + "=your_") || !Contains(content, key + "=")
  }

  /** The keys of `keys` that `content` leaves missing, in the order of `keys`. */
  function MissingKeys(content: string, keys: seq<string>): seq<string>
    decreases |keys|
  {
    if keys == [] then []
    else
      var rest := MissingKeys(content, keys[..|keys| - 1]);
      var key := keys[|keys| - 1];
      if KeyMissing(content, key) then rest + [key] else rest
  }

  /** Exactly the missing keys are reported, in the order they are required. */
  lemma {:induction false} MissingKeysExact(content: string, keys: seq<string>)
    ensures forall k :: k in MissingKeys(content, keys) <==> k in keys && KeyMissing(content, k)
    ensures IsSubsequence(MissingKeys(content, keys), keys)
    decreases |keys|
  {
    if keys != [] {
      var init, key := keys[..|keys| - 1], keys[|keys| - 1];
      MissingKeysExact(content, init);
      assert keys == init + [key];
      var rest := MissingKeys(content, init);
      if KeyMissing(content, key) {
        assert (rest + [key])[..|rest|] == rest;
      }
    }
  }

  /** No key is reported exactly when every key is configured. */
  lemma NoneMissing(content: string, keys: seq<string>)
    ensures MissingKeys(content, keys) == [] <==> forall k :: k in keys ==> !KeyMissing(content, k)
  {
    MissingKeysExact(content, keys);
    var missing := MissingKeys(content, keys);
    if missing != [] {
      assert missing[0] in missing;
    }
  }

  /** `check_env_file`: false without a file; otherwise the missing keys are collected
      in order, and the answer is true exactly when there are none. */
  method CheckEnvFile(content: Option<string>) returns (ok: bool, missing: seq<string>)
    ensures content.None? ==> !ok && missing == []
    ensures content.Some? ==> missing == MissingKeys(content.value, RequiredKeys)
    ensures ok <==> content.Some? && missing == []
  {
    if content.None? {
      return false, [];
    }
    missing := [];
    var i := 0;
    while i < |RequiredKeys|
      invariant 0 <= i <= |RequiredKeys|
      invariant missing == MissingKeys(content.value, RequiredKeys[..i])
      decreases |RequiredKeys| - i
    {
      var key := RequiredKeys[i];
      assert RequiredKeys[..i + 1][..i] == RequiredKeys[..i];
      if KeyMissing(content.value, key) {
        missing := missing + [key];
      }
      i := i + 1;
    }
    assert RequiredKeys[..i] == RequiredKeys;
    ok := missing == [];
  }

  /** A template file that still holds the placeholder for the model key reports that
      key first. */
  lemma PlaceholderReported(content: string)
    requires OccursAt(content, "GEMINI_API_KEY=your_", 0)
    ensures MissingKeys(content, RequiredKeys) != []
    ensures MissingKeys(content, RequiredKeys)[0] == "GEMINI_API_KEY"
  {
    assert RequiredKeys[..1] == ["GEMINI_API_KEY"];
    assert "GEMINI_API_KEY" + "=your_" == "GEMINI_API_KEY=your_";
    assert OccursAt(content, "GEMINI_API_KEY" + "=your_", 0);
    assert KeyMissing(content, "GEMINI_API_KEY");
    assert MissingKeys(content, RequiredKeys[..1]) == ["GEMINI_API_KEY"];
  }
}
