/** The session's in-memory response cache
    (src/cortex/core/utils/ResponseCache.ts): a key made of the class, the
    tool and a 32-bit hash of the normalised input, and a map from keys to
    answers. */
module ResponseCache {
  import opened Wrappers
  import opened Text
  import opened Classes
  import ToolDefinitions

  // ---------------------------------------------------------------------------
  // 32-bit arithmetic

  predicate IsInt32(x: int) {
    -0x8000_0000 <= x < 0x8000_0000
  }

  /** ECMAScript's ToInt32: the signed 32-bit integer congruent to `x`
      modulo 2^32. */
  function Wrap32(x: int): (r: int)
    ensures IsInt32(r)
    ensures (x - r) % 0x1_0000_0000 == 0
  {
    (x + 0x8000_0000) % 0x1_0000_0000 - 0x8000_0000
  }

  /** ToInt32 keeps a value already in range. */
  lemma Wrap32Keeps(x: int)
    requires IsInt32(x)
    ensures Wrap32(x) == x
  {
  }

  /** ToInt32 ignores multiples of 2^32. */
  lemma Wrap32Shift(x: int, k: int)
    ensures Wrap32(x + k * 0x1_0000_0000) == Wrap32(x)
  {
    var y := x + 0x8000_0000;
    assert (y + k * 0x1_0000_0000) % 0x1_0000_0000 == y % 0x1_0000_0000;
  }

  /** ToInt32 subtracts a multiple of 2^32. */
  lemma Wrap32Offset(x: int) returns (k: int)
    ensures Wrap32(x) == x - k * 0x1_0000_0000
  {
    k := (x + 0x8000_0000) / 0x1_0000_0000;
  }

  // ---------------------------------------------------------------------------
  // simpleHash

  /** One round of the loop: `hash = (hash << 5) - hash + char`, then
      `hash = hash & hash`. The shift and the `&` both work on ToInt32 of
      their operands and give a signed 32-bit result. */
  function Step(hash: int, c: char): int {
    Wrap32(Wrap32(Wrap32(hash) * 32) - hash + c as int)
  }

  /** A round is the textbook multiply-by-31 string hash, taken to 32 bits. */
  lemma StepIsTimes31(hash: int, c: char)
    ensures Step(hash, c) == Wrap32(31 * hash + c as int)
  {
    var p := Wrap32Offset(hash);
    var q := Wrap32Offset(Wrap32(hash) * 32);
    var sum := Wrap32(Wrap32(hash) * 32) - hash + c as int;
    assert sum == 31 * hash + c as int + (-(32 * p + q)) * 0x1_0000_0000;
    Wrap32Shift(31 * hash + c as int, -(32 * p + q));
  }

  /** The hash of `s`: the rounds applied to its characters from the first. */
  function Hash(s: string): (h: int)
    ensures IsInt32(h)
  {
    if |s| == 0 then 0 else Step(Hash(s[..|s| - 1]), s[|s| - 1])
  }

  /** `simpleHash`: the decimal text of the hash. */
  function HashText(s: string): string {
    IntToString(Hash(s))
  }

  /** The loop of `simpleHash`: `hash` stays a signed 32-bit integer after
      every round and ends as the hash of the whole text. */
  method SimpleHash(s: string) returns (r: string)
    ensures r == HashText(s)
  {
    var hash := 0;
    for i := 0 to |s|
      invariant IsInt32(hash)
      invariant hash == Hash(s[..i])
    {
      var code := s[i] as int;
      assert s[..i + 1][..i] == s[..i];
      hash := Wrap32(Wrap32(hash) * 32) - hash + code;
      hash := Wrap32(hash);
    }
    assert s[..|s|] == s;
    r := IntToString(hash);
  }

  /** The empty text hashes to `"0"`. */
  lemma EmptyHashesToZero()
    ensures HashText("") == "0"
  {
    assert Hash("") == 0;
    assert NatToString(0) == "0";
  }

  /** Texts that differ share a key when their hashes agree: `"a@"` and
      `"b!"` both hash to 3071. */
  lemma KeysCanCollide()
    ensures "a@" != "b!" && HashText("a@") == HashText("b!")
  {
    assert "a@"[..1] == "a" && "b!"[..1] == "b";
    assert "a"[..0] == "" && "b"[..0] == "";
    assert Hash("a") == 97 by { StepIsTimes31(0, 'a'); }
    assert Hash("b") == 98 by { StepIsTimes31(0, 'b'); }
    assert Hash("a@") == 3071 by { StepIsTimes31(97, '@'); }
    assert Hash("b!") == 3071 by { StepIsTimes31(98, '!'); }
  }

  // ---------------------------------------------------------------------------
  // Keys

  /** `{ userClass, tool, input }`. */
  datatype CacheKeyParams = CacheKeyParams(
    userClass: Option<UserClass>, tool: Option<ToolDefinitions.ToolId>, input: string)

  /** `userClass || 'none'`. */
  function ClassPart(c: Option<UserClass>): string {
    if c.Some? then Name(c.value) else "none"
  }

  /** The string the program uses for a tool id (`ToolId` is a union of
      string literals). */
  function ToolIdText(id: ToolDefinitions.ToolId): string {
    match id
    case Explain => "explain"
    case Notes => "notes"
    case Practice => "practice"
    case Homework => "homework"
    case Translate => "translate"
  }

  /** `tool || 'chat'`. */
  function ToolPart(t: Option<ToolDefinitions.ToolId>): string {
    if t.Some? then ToolIdText(t.value) else "chat"
  }

  /** The input as the key sees it: trimmed, then lower-cased. */
  function Normalize(input: string): string {
    Lower(Trim(input))
  }

  /** `getCacheKey`. */
  function GetCacheKey(p: CacheKeyParams): (key: string)
    ensures key == ClassPart(p.userClass) + ":" + ToolPart(p.tool) + ":" + HashText(Normalize(p.input))
  {
    ClassPart(p.userClass) + ":" + ToolPart(p.tool) + ":" + HashText(Lower(Trim(p.input)))
  }

  /** Inputs that differ only in letter case give the same key. */
  lemma KeyIgnoresCase(p: CacheKeyParams)
    ensures GetCacheKey(p.(input := Lower(p.input))) == GetCacheKey(p)
  {
    TrimLower(p.input);
    LowerIdempotent(Trim(p.input));
  }

  /** Inputs that differ only in surrounding whitespace give the same key. */
  lemma KeyIgnoresSurroundingWhitespace(p: CacheKeyParams, before: string, after: string)
    requires AllWhitespace(before) && AllWhitespace(after)
    ensures GetCacheKey(p.(input := before + p.input + after)) == GetCacheKey(p)
  {
    TrimIgnoresSurroundingWhitespace(before, p.input, after);
  }

  /** Requests for different classes (or a class and none) get different
      keys, whatever their tools and inputs. */
  lemma KeySeparatesClasses(p: CacheKeyParams, q: CacheKeyParams)
    requires p.userClass != q.userClass
    ensures GetCacheKey(p) != GetCacheKey(q)
  {
    var a, b := ClassPart(p.userClass), ClassPart(q.userClass);
    ClassPartDistinct(p.userClass, q.userClass);
    var kp, kq := GetCacheKey(p), GetCacheKey(q);
    KeyOpensWithClass(p);
    KeyOpensWithClass(q);
    if kp == kq {
      ColonPrefixDetermined(kp, a, b);
      assert false;
    }
  }

  /** The class part holds no colon and tells the classes apart. */
  lemma ClassPartDistinct(c: Option<UserClass>, d: Option<UserClass>)
    requires c != d
    ensures ':' !in ClassPart(c) && ':' !in ClassPart(d)
    ensures ClassPart(c) != ClassPart(d)
  {
    ClassPartColonFree(c);
    ClassPartColonFree(d);
    if c.Some? && d.Some? {
      if Name(c.value) == Name(d.value) {
        NameInjective(c.value, d.value);
      }
    } else if c.Some? {
      NameIsNotNone(c.value);
    } else {
      NameIsNotNone(d.value);
    }
  }

  lemma ClassPartColonFree(c: Option<UserClass>)
    ensures ':' !in ClassPart(c)
  {
    if c.Some? && c.value.Grade? {
      assert !IsDigit(':');
    }
  }

  lemma NameIsNotNone(c: UserClass)
    ensures Name(c) != "none"
  {
    if c.Grade? {
      assert !IsDigit("none"[0]);
    }
  }

  /** A text opens with at most one colon-free word followed by a colon. */
  lemma ColonPrefixDetermined(s: string, a: string, b: string)
    requires StartsWith(s, a + ":") && StartsWith(s, b + ":")
    requires ':' !in a && ':' !in b
    ensures a == b
  {
    ColonPrefixNoLonger(s, a, b);
    ColonPrefixNoLonger(s, b, a);
    assert a == s[..|a| + 1][..|a|];
    assert b == s[..|b| + 1][..|b|];
  }

  /** A colon-free word before a colon reaches no further than the first
      colon of the text. */
  lemma ColonPrefixNoLonger(s: string, a: string, b: string)
    requires StartsWith(s, a + ":") && StartsWith(s, b + ":")
    requires ':' !in b
    ensures |b| <= |a|
  {
    assert s[|a|] == ':' by {
      assert s[..|a| + 1][|a|] == ':';
    }
    forall i | 0 <= i < |b|
      ensures s[i] != ':'
    {
      assert s[..|b| + 1][i] == b[i];
    }
  }

  /** A key opens with the class part and a colon. */
  lemma KeyOpensWithClass(p: CacheKeyParams)
    ensures var a := ClassPart(p.userClass);
      StartsWith(GetCacheKey(p), a + ":") && GetCacheKey(p)[|a|] == ':'
  {
    var a := ClassPart(p.userClass);
    var t := ToolPart(p.tool);
    assert StartsWith(a + ":", a + ":");
    StartsWithAppend(a + ":", t, a + ":");
    StartsWithAppend(a + ":" + t, ":", a + ":");
    StartsWithAppend(a + ":" + t + ":", HashText(Normalize(p.input)), a + ":");
    assert GetCacheKey(p)[..|a| + 1][|a|] == ':';
  }

  // ---------------------------------------------------------------------------
  // The cache

  /** `cache.get(key) || null`: an entry holding the empty text reads as
      absent. */
  function Read(entries: map<string, string>, p: CacheKeyParams): (r: Option<string>)
    ensures r.Some? <==> GetCacheKey(p) in entries && entries[GetCacheKey(p)] != ""
    ensures r.Some? ==> r.value == entries[GetCacheKey(p)]
  {
    var key := GetCacheKey(p);
    if key in entries && entries[key] != "" then Some(entries[key]) else None
  }

  /** The module-level `Map`, with its three operations. */
  class Cache {
    var entries: map<string, string>

    constructor ()
      ensures entries == map[]
    {
      entries := map[];
    }

    /** `getCachedResponse`. */
    method GetCachedResponse(p: CacheKeyParams) returns (r: Option<string>)
      ensures r == Read(entries, p)
    {
      var key := GetCacheKey(p);
      if key in entries && entries[key] != "" {
        r := Some(entries[key]);
      } else {
        r := None;
      }
    }

    /** `cacheResponse`: the entry for the request's key, and only that one,
        now holds `response`. */
    method CacheResponse(p: CacheKeyParams, response: string)
      modifies this
      ensures entries == old(entries)[GetCacheKey(p) := response]
    {
      var key := GetCacheKey(p);
      entries := entries[key := response];
    }

    /** `clearCache`. */
    method ClearCache()
      modifies this
      ensures entries == map[]
    {
      entries := map[];
    }
  }

  /** A stored answer reads back, unless it is the empty text, which reads as
      absent. */
  lemma ReadAfterStore(entries: map<string, string>, p: CacheKeyParams, response: string)
    ensures Read(entries[GetCacheKey(p) := response], p) == if response == "" then None else Some(response)
  {
  }

  /** Storing leaves every request with another key reading as before. */
  lemma StoreKeepsOtherKeys(entries: map<string, string>, p: CacheKeyParams, q: CacheKeyParams, response: string)
    requires GetCacheKey(q) != GetCacheKey(p)
    ensures Read(entries[GetCacheKey(p) := response], q) == Read(entries, q)
  {
  }

  /** After clearing, every lookup finds nothing. */
  lemma ReadAfterClear(p: CacheKeyParams)
    ensures Read(map[], p).None?
  {
  }

  /** An answer stored for one input is found for the same input in another
      letter case. */
  lemma StoredFoundInAnyCase(entries: map<string, string>, p: CacheKeyParams, response: string)
    requires response != ""
    ensures Read(entries[GetCacheKey(p) := response], p.(input := Lower(p.input))) == Some(response)
  {
    KeyIgnoresCase(p);
  }
}
