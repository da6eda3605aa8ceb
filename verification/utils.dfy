/** Shared helpers (utils.go): the token-count cache and its key scheme,
    text extraction from chat messages, and the model-name driven response
    estimate. The Go cache is a process-wide map; here it is a value that
    callers thread through explicitly. */
module Utils {
  import opened Wrappers
  import opened Strings
  import opened Models
  import Json

  // ---------------------------------------------------------------------------
  // Cache keys
  // ---------------------------------------------------------------------------

  /** `hashString`: short strings are their own key; a string longer than 100
      characters is abbreviated to its first 50 characters, "...", its last
      50 characters, ":" and its length in decimal. */
  function HashString(s: string): (h: string)
    ensures |s| <= 100 ==> h == s
    ensures |s| > 100 ==> |h| == 104 + |Decimal(|s|)|
    ensures |s| > 100 ==> h[..50] == s[..50] && h[50..53] == "..." && h[53..103] == s[|s| - 50..]
    ensures |s| > 100 ==> h[103] == ':' && h[104..] == Decimal(|s|)
  {
    if |s| > 100 then s[..50] + "..." + s[|s| - 50..] + ":" + Decimal(|s|) else s
  }

  /** Two texts with the same abbreviation have the same length: short texts
      are kept whole, long ones end in their length, and the two shapes never
      meet (a long text's key is at least 105 characters). */
  lemma HashDeterminesLength(a: string, b: string)
    ensures HashString(a) == HashString(b) ==> |a| == |b|
  {
    if HashString(a) == HashString(b) && |a| > 100 && |b| > 100 {
      DecimalInjective(|a|, |b|);
    }
  }

  /** An abbreviated key differs from the text it abbreviates, except possibly
      at length 107, where the key is exactly as long as the text. */
  lemma HashChangesLongText(s: string)
    requires |s| > 100 && |s| != 107
    ensures HashString(s) != s
  {
    var n := |s|;
    if n < 1000 {
      DecimalLengthThree(n);
    } else {
      DecimalLengthBound(n);
    }
  }

  /** A 107-character text is its own abbreviation exactly when it has
      "..." at position 50, repeats itself with period 4 from position 53 on,
      and ends in ":107". */
  lemma HashFixedPointShape(s: string)
    requires |s| == 107
    ensures HashString(s) == s <==>
      s[50..53] == "..." && s[53..103] == s[57..] && s[103..] == ":107"
  {
    assert Decimal(107) == "107";
    assert HashString(s) == s[..50] + "..." + s[57..] + ":107";
    assert s == s[..50] + s[50..53] + s[53..103] + s[103..];
    if HashString(s) == s {
      var h := HashString(s);
      assert s[50..53] == h[50..53];
      assert s[53..103] == h[53..103];
      assert s[103..] == h[103..];
    }
  }

  /** Such a text exists, so the claim that `hashString` always changes texts
      longer than 100 characters fails at length 107. */
  lemma HashFixedPoint()
    ensures |FixedPointText()| == 107 && HashString(FixedPointText()) == FixedPointText()
  {
    var s, t := FixedPointText(), PeriodicTail();
    assert s[50..53] == "...";
    assert s[53..103] == t[..50];
    assert s[57..] == t[4..];
    assert t[..50] == t[4..];
    assert t[50..] == ":107";
    assert s[103..] == t[50..];
    HashFixedPointShape(s);
  }

  /** "07:1" repeated over 54 characters; it ends in ":107". */
  function PeriodicTail(): string
  {
    seq(54, i requires 0 <= i => "07:1"[i % 4])
  }

  /** The witness of `HashFixedPoint`: fifty letters, "...", the periodic tail. */
  function FixedPointText(): string
  {
    seq(50, i => 'a') + "..." + PeriodicTail()
  }

  /** The cache key `"<provider>:<model>:<hashString(text)>"`. */
  function CacheKey(provider: string, model: string, text: string): string
  {
    provider + ":" + model + ":" + HashString(text)
  }

  /** A name that cannot blur the key's ":" separators. */
  predicate ColonFree(name: string)
  {
    ':' !in name
  }

  /** The position of the first ':' in `s`, or `|s|` if there is none. */
  function ColonIndex(s: string): (i: nat)
    ensures i <= |s|
  {
    if |s| == 0 || s[0] == ':' then 0 else 1 + ColonIndex(s[1..])
  }

  /** In `a + ":" + x` with a colon-free `a`, the first ':' is the separator. */
  lemma {:induction false} ColonIndexOfJoin(a: string, x: string)
    requires ColonFree(a)
    ensures ColonIndex(a + ":" + x) == |a|
  {
    if |a| > 0 {
      assert a[0] in a;
      assert (a + ":" + x)[1..] == a[1..] + ":" + x;
      ColonIndexOfJoin(a[1..], x);
    }
  }

  /** Splitting `a + ":" + x == b + ":" + y` at the first colon. */
  lemma SplitAtColon(a: string, x: string, b: string, y: string)
    requires ColonFree(a) && ColonFree(b)
    requires a + ":" + x == b + ":" + y
    ensures a == b && x == y
  {
    var l, r := a + ":" + x, b + ":" + y;
    ColonIndexOfJoin(a, x);
    ColonIndexOfJoin(b, y);
    assert a == l[..|a|] == r[..|b|] == b;
    assert x == l[|a| + 1..] == r[|b| + 1..] == y;
  }

  /** With colon-free names, a key determines its provider and model, and
      texts sharing a key have the same length. */
  lemma KeySeparates(p1: string, m1: string, t1: string, p2: string, m2: string, t2: string)
    requires ColonFree(p1) && ColonFree(m1) && ColonFree(p2) && ColonFree(m2)
    requires CacheKey(p1, m1, t1) == CacheKey(p2, m2, t2)
    ensures p1 == p2 && m1 == m2 && |t1| == |t2|
  {
    SplitKey(p1, m1, HashString(t1), p2, m2, HashString(t2));
    HashDeterminesLength(t1, t2);
  }

  /** A key `"<p>:<m>:<h>"` with colon-free `p` and `m` splits back into its parts. */
  lemma SplitKey(p1: string, m1: string, h1: string, p2: string, m2: string, h2: string)
    requires ColonFree(p1) && ColonFree(m1) && ColonFree(p2) && ColonFree(m2)
    requires p1 + ":" + m1 + ":" + h1 == p2 + ":" + m2 + ":" + h2
    ensures p1 == p2 && m1 == m2 && h1 == h2
  {
    assert p1 + ":" + m1 + ":" + h1 == p1 + ":" + (m1 + ":" + h1);
    assert p2 + ":" + m2 + ":" + h2 == p2 + ":" + (m2 + ":" + h2);
    SplitAtColon(p1, m1 + ":" + h1, p2, m2 + ":" + h2);
    SplitAtColon(m1, h1, m2, h2);
  }

  /** Names containing ':' can share a key: ("a:b", "c") and ("a", "b:c"). */
  lemma ColonNamesCollide(text: string)
    ensures CacheKey("a:b", "c", text) == CacheKey("a", "b:c", text)
  {
  }

  // ---------------------------------------------------------------------------
  // The token cache
  // ---------------------------------------------------------------------------

  type Cache = map<string, int>

  /** `GetCachedTokenCount`: the count stored under the text's key, if any. */
  function GetCached(cache: Cache, provider: string, model: string, text: string): (r: Option<int>)
    ensures r.Some? <==> CacheKey(provider, model, text) in cache
    ensures r.Some? ==> r.value == cache[CacheKey(provider, model, text)]
  {
    var key := CacheKey(provider, model, text);
    if key in cache then Some(cache[key]) else None
  }

  /** `SetCachedTokenCount`. */
  function SetCached(cache: Cache, provider: string, model: string, text: string, count: int): (r: Cache)
    ensures GetCached(r, provider, model, text) == Some(count)
  {
    cache[CacheKey(provider, model, text) := count]
  }

  /** Storing an entry leaves every entry under another key as it was. */
  lemma SetCachedFrame(cache: Cache, provider: string, model: string, text: string, count: int,
                       p: string, m: string, t: string)
    requires CacheKey(p, m, t) != CacheKey(provider, model, text)
    ensures GetCached(SetCached(cache, provider, model, text, count), p, m, t) == GetCached(cache, p, m, t)
  {
  }

  /** Reading any entry of an empty cache is a miss. */
  lemma EmptyCacheMisses(provider: string, model: string, text: string)
    ensures GetCached(map[], provider, model, text) == None
  {
  }

  /** Entries stored under different colon-free provider or model names are
      kept apart: storing one leaves the other readable. */
  lemma SeparateEntries(cache: Cache, p1: string, m1: string, p2: string, m2: string, text: string, count: int)
    requires ColonFree(p1) && ColonFree(m1) && ColonFree(p2) && ColonFree(m2)
    requires p1 != p2 || m1 != m2
    ensures GetCached(SetCached(cache, p1, m1, text, count), p2, m2, text) == GetCached(cache, p2, m2, text)
  {
    if CacheKey(p1, m1, text) == CacheKey(p2, m2, text) {
      KeySeparates(p1, m1, text, p2, m2, text);
    } else {
      SetCachedFrame(cache, p1, m1, text, count, p2, m2, text);
    }
  }

  /** `CleanupCache`: the cache is kept while it has at most `maxSize`
      entries and dropped entirely otherwise. */
  function CleanupCache(cache: Cache, maxSize: int): (r: Cache)
    ensures |r| <= maxSize || |r| == 0
    ensures r == cache || r == map[]
    ensures |cache| <= maxSize ==> r == cache
  {
    if |cache| <= maxSize then cache else map[]
  }

  // ---------------------------------------------------------------------------
  // Text of chat messages
  // ---------------------------------------------------------------------------

  /** The text typed content parts contribute: each "text" part's text and a
      newline. */
  function PartsText(parts: seq<ContentPart>): string
  {
    if |parts| == 0 then ""
    else (if parts[0].partType == "text" then parts[0].text + "\n" else "") + PartsText(parts[1..])
  }

  /** The text one part decoded from JSON contributes: an object whose "type"
      is the string "text" and whose "text" is a string yields that string
      and a newline. */
  function JsonPartText(item: Json.Value): string
  {
    if item.JMap? && Json.StrField(item.fields, "type") == Some("text") && Json.StrField(item.fields, "text").Some?
    then Json.StrField(item.fields, "text").value + "\n"
    else ""
  }

  function JsonPartsText(items: seq<Json.Value>): string
  {
    if |items| == 0 then "" else JsonPartText(items[0]) + JsonPartsText(items[1..])
  }

  /** The text one message contributes. */
  function MessageText(m: Message): string
  {
    match m.content
    case TextContent(s) => s + "\n"
    case Parts(parts) => PartsText(parts)
    case JsonParts(items) => JsonPartsText(items)
    case OtherContent => ""
  }

  /** `ExtractTextFromMessages`. */
  function ExtractTextFromMessages(messages: seq<Message>): string
  {
    if |messages| == 0 then "" else MessageText(messages[0]) + ExtractTextFromMessages(messages[1..])
  }

  /** No messages, no text; extraction distributes over concatenation of
      message lists, so each message contributes its own text in order. */
  lemma {:induction false} ExtractDistributes(a: seq<Message>, b: seq<Message>)
    ensures ExtractTextFromMessages([]) == ""
    ensures ExtractTextFromMessages(a + b) == ExtractTextFromMessages(a) + ExtractTextFromMessages(b)
  {
    if |a| == 0 {
      assert a + b == b;
    } else {
      assert (a + b)[0] == a[0];
      assert (a + b)[1..] == a[1..] + b;
      ExtractDistributes(a[1..], b);
    }
  }

  /** What a single message emits: string content plus a newline, each typed
      or decoded "text" part plus a newline, and nothing for other shapes. */
  lemma ExtractSingle(m: Message)
    ensures ExtractTextFromMessages([m]) == MessageText(m)
    ensures m.content.TextContent? ==> ExtractTextFromMessages([m]) == m.content.text + "\n"
    ensures m.content.OtherContent? ==> ExtractTextFromMessages([m]) == ""
  {
    assert [m][1..] == [];
  }

  /** Typed parts emit their text parts in order and nothing else. */
  lemma {:induction false} PartsDistribute(a: seq<ContentPart>, b: seq<ContentPart>)
    ensures PartsText(a + b) == PartsText(a) + PartsText(b)
  {
    if |a| == 0 {
      assert a + b == b;
    } else {
      assert (a + b)[0] == a[0];
      assert (a + b)[1..] == a[1..] + b;
      PartsDistribute(a[1..], b);
    }
  }

  lemma PartSingle(p: ContentPart)
    ensures PartsText([p]) == if p.partType == "text" then p.text + "\n" else ""
  {
    assert [p][1..] == [];
  }

  /** Decoded parts emit their text parts in order and nothing else. */
  lemma {:induction false} JsonPartsDistribute(a: seq<Json.Value>, b: seq<Json.Value>)
    ensures JsonPartsText(a + b) == JsonPartsText(a) + JsonPartsText(b)
  {
    if |a| == 0 {
      assert a + b == b;
    } else {
      assert (a + b)[0] == a[0];
      assert (a + b)[1..] == a[1..] + b;
      JsonPartsDistribute(a[1..], b);
    }
  }

  /** `FormatToolsAsJSON`: the JSON encoding of the tools, or "" when there
      are none or they cannot be encoded. */
  function FormatToolsAsJSON(tools: seq<Tool>, marshal: Marshaller): (r: string)
    ensures |tools| == 0 ==> r == ""
    ensures |tools| > 0 && marshal.tools(tools).Ok? ==> r == marshal.tools(tools).value
    ensures |tools| > 0 && marshal.tools(tools).Fail? ==> r == ""
  {
    if |tools| == 0 then ""
    else match marshal.tools(tools)
      case Ok(data) => data
      case Fail(_) => ""
  }

  // ---------------------------------------------------------------------------
  // Response estimate
  // ---------------------------------------------------------------------------

  /** `EstimateResponseTokens`: a multiplier chosen by the first matching
      substring of the model name, checked in order "gpt-4", "gpt-3.5",
      "claude" (then "opus", "sonnet"), "gemini" (then "ultra"). For a
      non-negative input the estimate is between 0 and twice the input. */
  function EstimateResponseTokens(model: string, inputTokens: int): (r: int)
    ensures inputTokens >= 0 ==> 0 <= r <= 2 * inputTokens
  {
    if Contains(model, "gpt-4") then inputTokens
    else if Contains(model, "gpt-3.5") then GoDiv(inputTokens, 2)
    else if Contains(model, "claude") then
      if Contains(model, "opus") then inputTokens * 2
      else if Contains(model, "sonnet") then inputTokens
      else GoDiv(inputTokens, 2)
    else if Contains(model, "gemini") then
      if Contains(model, "ultra") then GoDiv(inputTokens * 3, 2)
      else GoDiv(inputTokens, 2)
    else GoDiv(inputTokens, 2)
  }

  /** The estimate for the OpenAI model names: "gpt-4" wins over "gpt-3.5". */
  lemma EstimateOpenAIModels(model: string, n: int)
    ensures model == "gpt-4" || model == "gpt-4-turbo" ==> EstimateResponseTokens(model, n) == n
    ensures model == "gpt-3.5-turbo" ==> EstimateResponseTokens(model, n) == GoDiv(n, 2)
  {
    if model == "gpt-4" || model == "gpt-4-turbo" {
      ContainsAt(model, "gpt-4", 0);
    } else if model == "gpt-3.5-turbo" {
      ContainsChars(model, "gpt-4", '4');
      ContainsAt(model, "gpt-3.5", 0);
    }
  }

  /** The estimate for the Claude model names. */
  lemma EstimateClaudeModels(model: string, n: int)
    ensures model == "claude-3-opus" ==> EstimateResponseTokens(model, n) == 2 * n
    ensures model == "claude-3-sonnet" ==> EstimateResponseTokens(model, n) == n
    ensures model == "claude-3-haiku" ==> EstimateResponseTokens(model, n) == GoDiv(n, 2)
  {
    if model == "claude-3-opus" {
      ClaudeFamily(model);
      assert model[9..13] == "opus";
      ContainsAt(model, "opus", 9);
    } else if model == "claude-3-sonnet" {
      EstimateClaudeSonnet(model, n);
    } else if model == "claude-3-haiku" {
      EstimateClaudeHaiku(model, n);
    }
  }

  lemma EstimateClaudeSonnet(model: string, n: int)
    requires model == "claude-3-sonnet"
    ensures EstimateResponseTokens(model, n) == n
  {
    ClaudeFamily(model);
    ContainsChars(model, "opus", 'p');
    assert model[9..15] == "sonnet";
    ContainsAt(model, "sonnet", 9);
  }

  lemma EstimateClaudeHaiku(model: string, n: int)
    requires model == "claude-3-haiku"
    ensures EstimateResponseTokens(model, n) == GoDiv(n, 2)
  {
    ClaudeFamily(model);
    ContainsChars(model, "opus", 'o');
    ContainsChars(model, "sonnet", 's');
  }

  /** A name starting "claude-3-" without a 'g' is judged a Claude model. */
  lemma ClaudeFamily(model: string)
    requires |model| >= 9 && model[..9] == "claude-3-" && 'g' !in model
    ensures !Contains(model, "gpt-4") && !Contains(model, "gpt-3.5") && Contains(model, "claude")
  {
    ContainsChars(model, "gpt-4", 'g');
    ContainsChars(model, "gpt-3.5", 'g');
    assert model[..6] == "claude";
    ContainsAt(model, "claude", 0);
  }

  /** The estimate for the Gemini model names. */
  lemma EstimateGeminiModels(model: string, n: int)
    ensures model == "gemini-ultra" ==> EstimateResponseTokens(model, n) == GoDiv(3 * n, 2)
    ensures model == "gemini-pro" ==> EstimateResponseTokens(model, n) == GoDiv(n, 2)
  {
    if model == "gemini-ultra" {
      GeminiFamily(model);
      assert model[7..12] == "ultra";
      ContainsAt(model, "ultra", 7);
    } else if model == "gemini-pro" {
      GeminiFamily(model);
      ContainsChars(model, "ultra", 'u');
    }
  }

  /** A name starting "gemini-" without a '4', '3' or 'c' is judged a Gemini model. */
  lemma GeminiFamily(model: string)
    requires |model| >= 7 && model[..7] == "gemini-" && '4' !in model && '3' !in model && 'c' !in model
    ensures !Contains(model, "gpt-4") && !Contains(model, "gpt-3.5") && !Contains(model, "claude")
    ensures Contains(model, "gemini")
  {
    ContainsChars(model, "gpt-4", '4');
    ContainsChars(model, "gpt-3.5", '3');
    ContainsChars(model, "claude", 'c');
    assert model[..6] == "gemini";
    ContainsAt(model, "gemini", 0);
  }

  /** A model name of no known family, one containing none of "gpt-4",
      "gpt-3.5", "claude" and "gemini", gets half the input. */
  lemma EstimateUnknownModel(model: string, n: int)
    requires !Contains(model, "gpt-4") && !Contains(model, "gpt-3.5")
    requires !Contains(model, "claude") && !Contains(model, "gemini")
    ensures EstimateResponseTokens(model, n) == GoDiv(n, 2)
  {
  }

  /** In particular a name without the letters 'g' and 'c' is of no known
      family. */
  lemma EstimateWithoutFamilyLetters(model: string, n: int)
    requires 'g' !in model && 'c' !in model
    ensures EstimateResponseTokens(model, n) == GoDiv(n, 2)
  {
    ContainsChars(model, "gpt-4", 'g');
    ContainsChars(model, "gpt-3.5", 'g');
    ContainsChars(model, "claude", 'c');
    ContainsChars(model, "gemini", 'g');
    EstimateUnknownModel(model, n);
  }
}
