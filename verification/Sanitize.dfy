/** What of a request or response body goes into the history: secrets masked, oversized bodies cut. */
module Sanitize {
  import opened Options
  import J = Json

  // A decoded body.
  datatype Body =
    | Null
    | Bool(value: bool)
    | Number(text: string)
    | Text(chars: string)
    | List(items: seq<Body>)
    | Map(entries: map<string, Body>)

  const MASK: Body := Text("***")

  // ---------- which keys are secret ----------

  // Of the letters outside ASCII exactly two have ASCII letters as their lower case: the dotted capital I and the
  // Kelvin sign. What others become makes no difference here.
  function LowerChar(c: char): char {
    if 'A' <= c <= 'Z' then (c as int + 32) as char
    else if c == '\U{0130}' then 'i'
    else if c == '\U{212A}' then 'k'
    else c
  }

  function Lower(s: string): (r: string)
    ensures |r| == |s|
  {
    seq(|s|, i requires 0 <= i < |s| => LowerChar(s[i]))
  }

  predicate StandsAt(part: string, s: string, i: int) {
    0 <= i <= |s| - |part| && s[i..i + |part|] == part
  }

  predicate Contains(s: string, part: string) {
    exists i | 0 <= i <= |s| :: StandsAt(part, s, i)
  }

  predicate IsSecret(key: string) {
    var k := Lower(key);
    k == "authorization" || k == "password" || k == "secret" || Contains(k, "token")
  }

  // The same letter in either case, with the two that are only written differently.
  predicate SameLetter(c: char, letter: char) {
    || c == letter
    || ('A' <= c <= 'Z' && c as int + 32 == letter as int)
    || (c == '\U{0130}' && letter == 'i')
    || (c == '\U{212A}' && letter == 'k')
  }

  predicate Spells(s: string, word: string) {
    |s| == |word| && forall i | 0 <= i < |s| :: SameLetter(s[i], word[i])
  }

  predicate SpellsAt(s: string, i: int, word: string) {
    0 <= i <= |s| - |word| && Spells(s[i..i + |word|], word)
  }

  predicate InLowerCase(word: string) {
    forall i | 0 <= i < |word| :: 'a' <= word[i] <= 'z'
  }

  lemma SpelledIffLower(s: string, word: string)
    requires InLowerCase(word)
    ensures Spells(s, word) <==> Lower(s) == word
  {
    if Lower(s) == word {
      forall i | 0 <= i < |s|
        ensures SameLetter(s[i], word[i])
      {
        assert LowerChar(s[i]) == word[i];
      }
    }
    if Spells(s, word) {
      forall i | 0 <= i < |s|
        ensures Lower(s)[i] == word[i]
      {
        assert SameLetter(s[i], word[i]);
      }
    }
  }

  // A key is secret exactly if it spells one of three words, or has the fourth in it, in any mixture of cases.
  lemma SecretKeys(key: string)
    ensures IsSecret(key)
       <==> || Spells(key, "authorization") || Spells(key, "password") || Spells(key, "secret")
            || exists i | 0 <= i <= |key| :: SpellsAt(key, i, "token")
  {
    hide Spells, Lower;
    SpelledIffLower(key, "authorization");
    SpelledIffLower(key, "password");
    SpelledIffLower(key, "secret");
    forall i | 0 <= i <= |key|
      ensures SpellsAt(key, i, "token") <==> StandsAt("token", Lower(key), i)
    {
      SpelledInside(key, i, "token");
    }
  }

  lemma SpelledInside(key: string, i: nat, word: string)
    requires InLowerCase(word)
    ensures SpellsAt(key, i, word) <==> StandsAt(word, Lower(key), i)
  {
    if i <= |key| - |word| {
      var part := key[i..i + |word|];
      SpelledIffLower(part, word);
      assert forall k | 0 <= k < |part| :: Lower(part)[k] == Lower(key)[i..i + |word|][k];
      assert Lower(part) == Lower(key)[i..i + |word|];
    }
  }

  // ---------- masking ----------

  // Maps are searched at every depth, lists are left as they are.
  function Masked(v: Body): (r: Body)
    ensures r.Map? <==> v.Map?
    ensures v.Map? ==> r.entries.Keys == v.entries.Keys
    decreases v
  {
    if v.Map? then Map(map k | k in v.entries :: if IsSecret(k) then MASK else Masked(v.entries[k])) else v
  }

  // The keys come in any order.
  method DeepSanitize(v: Body) returns (out: map<string, Body>)
    requires v.Map?
    ensures Map(out) == Masked(v)
    decreases v
  {
    out := map[];
    var left := v.entries.Keys;
    while left != {}
      invariant left <= v.entries.Keys && out.Keys == v.entries.Keys - left
      invariant forall k | k in out :: out[k] == if IsSecret(k) then MASK else Masked(v.entries[k])
      decreases |left|
    {
      var k :| k in left;
      if IsSecret(k) {
        out := out[k := MASK];
      } else if v.entries[k].Map? {
        var inner := DeepSanitize(v.entries[k]);
        out := out[k := Map(inner)];
      } else {
        out := out[k := v.entries[k]];
      }
      left := left - {k};
    }
  }

  // What stands at the end of a path of keys.
  function Lookup(v: Body, path: seq<string>): Option<Body>
    decreases |path|
  {
    if path == [] then Some(v)
    else if v.Map? && path[0] in v.entries then Lookup(v.entries[path[0]], path[1..])
    else None
  }

  predicate PassesSecret(path: seq<string>) {
    exists i | 0 <= i < |path| :: IsSecret(path[i])
  }

  // A path without a secret key leads where it led before, to the masked form of what was there: the paths that
  // existed still do, and what is not a map has kept its value.
  lemma {:induction false} OpenPathsAreKept(v: Body, path: seq<string>)
    requires !PassesSecret(path)
    ensures Lookup(Masked(v), path)
            == (var there := Lookup(v, path); if there.Some? then Some(Masked(there.value)) else None)
    decreases |path|
  {
    if path == [] {
    } else {
      assert !IsSecret(path[0]);
      assert forall i | 0 <= i < |path[1..]| :: path[1..][i] == path[i + 1];
      if v.Map? && path[0] in v.entries { OpenPathsAreKept(v.entries[path[0]], path[1..]); }
    }
  }

  // Its last key is the first secret one.
  predicate EndsAtSecret(path: seq<string>) {
    path != [] && IsSecret(path[|path| - 1]) && !PassesSecret(path[..|path| - 1])
  }

  // A path through a secret key leads to the mask if it existed and ends there, and nowhere if it would go on.
  lemma {:induction false} SecretPathsAreMasked(v: Body, path: seq<string>)
    requires PassesSecret(path)
    ensures Lookup(Masked(v), path) == if Lookup(v, path).Some? && EndsAtSecret(path) then Some(Text("***")) else None
    decreases |path|
  {
    if IsSecret(path[0]) {
      FirstIsSecret(v, path);
    } else {
      var i :| 0 <= i < |path| && IsSecret(path[i]);
      assert path[1..][i - 1] == path[i];
      EndsLater(path);
      if v.Map? && path[0] in v.entries {
        SecretPathsAreMasked(v.entries[path[0]], path[1..]);
        assert Masked(v).entries[path[0]] == Masked(v.entries[path[0]]);
      }
    }
  }

  lemma FirstIsSecret(v: Body, path: seq<string>)
    requires path != [] && IsSecret(path[0])
    ensures Lookup(Masked(v), path) == if Lookup(v, path).Some? && EndsAtSecret(path) then Some(MASK) else None
  {
    hide IsSecret;
    var front, rest := path[..|path| - 1], path[1..];
    if v.Map? && path[0] in v.entries {
      assert Masked(v).entries[path[0]] == MASK;
      assert Lookup(Masked(v), path) == Lookup(MASK, rest);
    }
    if |path| == 1 {
      assert front == [] && rest == [];
      assert EndsAtSecret(path);
    } else {
      assert IsSecret(front[0]) && PassesSecret(front);
      assert Lookup(MASK, rest) == None;
    }
  }

  lemma EndsLater(path: seq<string>)
    requires |path| > 1 && !IsSecret(path[0])
    ensures EndsAtSecret(path) == EndsAtSecret(path[1..])
  {
    var front, rest := path[..|path| - 1], path[1..];
    var middle := rest[..|rest| - 1];
    assert forall i | 0 <= i < |middle| :: middle[i] == front[i + 1];
    assert forall i | 0 < i < |front| :: front[i] == middle[i - 1];
    assert front[0] == path[0];
  }

  // Masking changes nothing exactly if whatever a path through a secret key leads to is the mask already.
  lemma {:induction false} UnchangedIffNothingSecret(v: Body)
    ensures Masked(v) == v
            <==> forall path :: PassesSecret(path) && Lookup(v, path).Some? ==> Lookup(v, path).value == MASK
    decreases v
  {
    if Masked(v) == v {
      forall path | PassesSecret(path) && Lookup(v, path).Some?
        ensures Lookup(v, path).value == MASK
      {
        SecretPathsAreMasked(v, path);
      }
    }
    if forall path :: PassesSecret(path) && Lookup(v, path).Some? ==> Lookup(v, path).value == MASK {
      CleanIsUnchanged(v);
    }
  }

  lemma {:induction false} CleanIsUnchanged(v: Body)
    requires forall path :: PassesSecret(path) && Lookup(v, path).Some? ==> Lookup(v, path).value == MASK
    ensures Masked(v) == v
    decreases v
  {
    if v.Map? {
      forall k | k in v.entries
        ensures Masked(v).entries[k] == v.entries[k]
      {
        if IsSecret(k) {
          assert [k][0] == k && [k][1..] == [];
          assert PassesSecret([k]) && Lookup(v, [k]) == Some(v.entries[k]);
        } else {
          forall path | PassesSecret(path) && Lookup(v.entries[k], path).Some?
            ensures Lookup(v.entries[k], path).value == MASK
          {
            LongerPath(v, k, path);
          }
          CleanIsUnchanged(v.entries[k]);
        }
      }
    }
  }

  lemma LongerPath(v: Body, k: string, path: seq<string>)
    requires v.Map? && k in v.entries && PassesSecret(path)
    ensures PassesSecret([k] + path) && Lookup(v, [k] + path) == Lookup(v.entries[k], path)
  {
    var i :| 0 <= i < |path| && IsSecret(path[i]);
    assert ([k] + path)[i + 1] == path[i];
    assert ([k] + path)[1..] == path;
  }

  lemma {:induction false} MaskingTwiceIsMaskingOnce(v: Body)
    ensures Masked(Masked(v)) == Masked(v)
  {
    forall path | PassesSecret(path) && Lookup(Masked(v), path).Some?
      ensures Lookup(Masked(v), path).value == MASK
    {
      SecretPathsAreMasked(v, path);
    }
    UnchangedIffNothingSecret(Masked(v));
  }

  // ---------- what is stored ----------

  const TRUNCATED: Body := Map(map["truncated" := Bool(true)])

  // The serialized form of the masked body.
  function Raw(v: Body, marshal: Body -> J.Value): seq<J.Byte> {
    J.ValueText(marshal(Masked(v)))
  }

  // Bodies are written by any serializer that writes maps as JSON objects, and read back by any reader that reads
  // JSON texts only. A body over the limit is cut, and since what is left is never a JSON text, it is always stored
  // as the marker; size and digest are those of the whole masked body in either case.
  method SanitizeMap(body: Option<Body>, maxBytes: int, marshal: Body -> J.Value, unmarshal: seq<J.Byte> -> Option<Body>,
                     hash: seq<J.Byte> -> string)
    returns (stored: Option<Body>, truncated: bool, digest: string, size: nat)
    requires body.Some? ==> body.value.Map?
    requires forall v: Body :: v.Map? ==> marshal(v).Object? && J.ValidValue(marshal(v))
    requires forall text :: unmarshal(text).Some? ==> J.IsJsonText(text)
    ensures body.None? ==> stored.None? && !truncated && digest == "" && size == 0
    ensures body.Some? ==> size == |Raw(body.value, marshal)| && digest == hash(Raw(body.value, marshal))
    ensures body.Some? ==> (truncated <==> size > if maxBytes <= 0 then 8192 else maxBytes)
    ensures body.Some? ==> stored == Some(if truncated then Map(map["truncated" := Bool(true)]) else Masked(body.value))
  {
    if body.None? { return None, false, "", 0; }
    var copy := DeepSanitize(body.value);
    var raw := J.ValueText(marshal(Map(copy)));
    digest, size := hash(raw), |raw|;
    var limit := if maxBytes <= 0 then 8192 else maxBytes;
    if size <= limit { return Some(Map(copy)), false, digest, size; }
    J.NoPrefixOfAnObject(marshal(Map(copy)), limit);
    stored := unmarshal(raw[..limit]);
    if stored.None? { stored := Some(TRUNCATED); }
    truncated := true;
  }
}
