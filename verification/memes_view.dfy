/** The Memes window: it asks a meme feed for a post from one of five
    wholesome subreddits, normalises the answer, rejects it when it has no
    image or mentions a banned word, and otherwise shows it; every failure
    shows one of five built-in memes instead. The subreddit pick, the
    fallback pick and the network answer are parameters. */
module MemesView {
  import opened Wrappers
  import Text

  /** The JSON body of the feed's answer, reduced to the fields the view reads. */
  datatype MemePayload = MemePayload(
    url: Option<string>,
    title: Option<string>,
    subreddit: Option<string>,
    tags: Option<seq<string>>)

  datatype MemeState = MemeState(image: string, caption: string, tags: seq<string>, source: string)

  /** What the network delivered: a failed request or an unreadable body, an
      HTTP status outside 200-299, or a body. */
  datatype Response = Failed | NotOk(status: int) | Body(payload: MemePayload)

  datatype Rejection = RequestFailed | MissingImage | FilteredOut

  datatype Decision = Accepted(meme: MemeState) | Rejected(reason: Rejection)

  const WholesomeSubs: seq<string> := ["wholesomememes", "CleanMemes", "AnimalsBeingDerps", "aww", "dogmemes"]

  /** The banned patterns, each a case-insensitive unanchored match of a plain
      word; `drugs?` matches wherever "drug" does. */
  const BannedWords: seq<string> := [
    "nsfw", "politic", "trump", "biden", "election", "kill", "murder", "gun",
    "weapon", "drug", "sex", "porn", "nazi", "hitler", "damn", "hell", "shit",
    "fuck", "bitch", "bastard", "whore"]

  const OfflineVault := "Offline Vault"

  const FallbackMemes: seq<MemeState> := [
    MemeState("https://i.imgur.com/w1aN5dM.jpg", "Golden retriever demoing excellent pair-programming etiquette.", [], OfflineVault),
    MemeState("https://i.imgur.com/2l6ZJ1w.jpg", "Cat who just merged a pull request without conflicts.", [], OfflineVault),
    MemeState("https://i.imgur.com/vLw1JcZ.jpg", "Baby sloth reminding you to take breaks.", [], OfflineVault),
    MemeState("https://i.imgur.com/omw5Jwq.jpg", "Hedgehog hype team cheering for your sprint demo.", [], OfflineVault),
    MemeState("https://i.imgur.com/Vy3t7yR.jpg", "Dog with coffee ready for Monday stand-up.", [], OfflineVault)]

  const BackupFeedMessage := "Using the wholesome backup feed while the live source recuperates."

  // ---------------------------------------------------------------------
  // Strings

  /** JavaScript's `s || d` on an optional string: missing or empty gives `d`. */
  function OrElse(s: Option<string>, d: string): (r: string)
    ensures s.Some? && s.value != "" ==> r == s.value
    ensures s.None? || s.value == "" ==> r == d
  {
    if s.Some? && s.value != "" then s.value else d
  }

  /** The white space and line terminators that `String.prototype.trim` removes. */
  predicate IsSpace(c: char) {
    var n := c as int;
    n == 0x09 || n == 0x0A || n == 0x0B || n == 0x0C || n == 0x0D || n == 0x20
    || n == 0xA0 || n == 0x1680 || (0x2000 <= n <= 0x200A) || n == 0x2028 || n == 0x2029
    || n == 0x202F || n == 0x205F || n == 0x3000 || n == 0xFEFF
  }

  predicate AllSpace(s: string) {
    forall i :: 0 <= i < |s| ==> IsSpace(s[i])
  }

  function TrimStart(s: string): (r: string)
    ensures |r| <= |s| && r == s[|s| - |r|..]
    ensures AllSpace(s[..|s| - |r|])
    ensures r == [] || !IsSpace(r[0])
  {
    if s != [] && IsSpace(s[0]) then TrimStart(s[1..]) else s
  }

  function TrimEnd(s: string): (r: string)
    ensures |r| <= |s| && r == s[..|r|]
    ensures AllSpace(s[|r|..])
    ensures r == [] || !IsSpace(r[|r| - 1])
  {
    if s != [] && IsSpace(s[|s| - 1]) then TrimEnd(s[..|s| - 1]) else s
  }

  /** `trim`: the longest middle part of `s` that neither starts nor ends with
      white space; what it drops on either side is white space. */
  function Trim(s: string): (r: string)
    ensures exists a, b :: 0 <= a <= b <= |s| && r == s[a..b] && AllSpace(s[..a]) && AllSpace(s[b..])
    ensures r == [] || (!IsSpace(r[0]) && !IsSpace(r[|r| - 1]))
  {
    var t := TrimStart(s);
    var r := TrimEnd(t);
    var a := |s| - |t|;
    assert r == s[a..a + |r|];
    assert s[a + |r|..] == t[|r|..];
    assert r != [] ==> r[0] == t[0];
    r
  }

  /** `parts.join(sep)`. */
  function Join(parts: seq<string>, sep: string): (r: string)
    ensures parts == [] ==> r == ""
    ensures parts != [] ==> |parts[0]| <= |r| && r[..|parts[0]|] == parts[0]
  {
    if |parts| == 0 then ""
    else if |parts| == 1 then parts[0]
    else parts[0] + (sep + Join(parts[1..], sep))
  }

  // ---------------------------------------------------------------------
  // The word filter

  /** `word` (lower case) occurs in `text` at position `i`, ignoring case. */
  predicate MatchesAt(text: string, word: string, i: int)
    requires 0 <= i && i + |word| <= |text|
  {
    Text.Lower(text[i..i + |word|]) == word
  }

  /** `word` occurs somewhere in `text`, ignoring case. */
  predicate Occurs(text: string, word: string) {
    exists i :: 0 <= i && i + |word| <= |text| && MatchesAt(text, word, i)
  }

  /** A case-insensitive, unanchored search for a plain lower-case word. */
  function Contains(text: string, word: string): (r: bool)
    ensures r <==> Occurs(text, word)
    decreases |text|
  {
    if |text| < |word| then false
    else if MatchesAt(text, word, 0) then true
    else
      MatchShift(text, word);
      Contains(text[1..], word)
  }

  /** A match is at the first position or is a match in the rest of the text. */
  lemma MatchShift(text: string, word: string)
    requires |text| >= |word| && |text| > 0
    ensures Occurs(text, word) <==> MatchesAt(text, word, 0) || Occurs(text[1..], word)
  {
    forall i | 0 < i && i + |word| <= |text|
      ensures MatchesAt(text, word, i) <==> MatchesAt(text[1..], word, i - 1)
    {
      var a, b := text[i..i + |word|], text[1..][i - 1..i - 1 + |word|];
      assert |a| == |b|;
      assert forall j :: 0 <= j < |a| ==> a[j] == b[j];
      assert a == b;
    }
    if exists i :: 0 <= i && i + |word| <= |text[1..]| && MatchesAt(text[1..], word, i) {
      var i :| 0 <= i && i + |word| <= |text[1..]| && MatchesAt(text[1..], word, i);
      assert MatchesAt(text, word, i + 1);
    }
  }

  /** `BANNED_PATTERNS.some(p => p.test(content))`, for any word list. */
  function MatchesAny(content: string, words: seq<string>): (r: bool)
    ensures r <==> exists k :: 0 <= k < |words| && Contains(content, words[k])
  {
    if words == [] then false
    else Contains(content, words[0]) || MatchesAny(content, words[1..])
  }

  predicate Banned(content: string)
    ensures Banned(content) <==> exists k :: 0 <= k < |BannedWords| && Occurs(content, BannedWords[k])
  {
    MatchesAny(content, BannedWords)
  }

  /** The text the filter looks at: the caption, a space, and the tags joined by spaces. */
  function Content(caption: string, tags: seq<string>): (r: string)
    ensures |r| == |caption| + 1 + |Join(tags, " ")|
    ensures r[..|caption|] == caption && r[|caption|] == ' '
    ensures r[|caption| + 1..] == Join(tags, " ")
  {
    caption + (" " + Join(tags, " "))
  }

  /** The filter ignores case: a text and its lower-cased form are banned alike. */
  lemma BannedIgnoresCase(text: string)
    ensures Banned(text) <==> Banned(Text.Lower(text))
  {
    var low := Text.Lower(text);
    forall w, i | 0 <= i && i + |w| <= |text|
      ensures MatchesAt(text, w, i) <==> MatchesAt(low, w, i)
    {
      assert Text.Lower(low[i..i + |w|]) == Text.Lower(text[i..i + |w|]);
    }
  }

  /** The match is unanchored: "hello" is rejected through "hell". */
  lemma HelloIsBanned()
    ensures Banned("hello")
  {
    assert MatchesAt("hello", "hell", 0);
    assert Contains("hello", BannedWords[15]);
  }

  /** The match ignores letter case and position: "Shell" is rejected too. */
  lemma ShellIsBanned()
    ensures Banned("Shell")
  {
    assert MatchesAt("Shell", "hell", 1);
    assert Contains("Shell", BannedWords[15]);
  }

  /** A match in a part is a match in the whole. */
  lemma {:induction false} ContainsInConcat(a: string, b: string, word: string)
    ensures Contains(a, word) ==> Contains(a + b, word)
    ensures Contains(b, word) ==> Contains(a + b, word)
  {
    if Contains(a, word) {
      var i :| 0 <= i && i + |word| <= |a| && MatchesAt(a, word, i);
      assert (a + b)[i..i + |word|] == a[i..i + |word|];
      assert MatchesAt(a + b, word, i);
    }
    if Contains(b, word) {
      var i :| 0 <= i && i + |word| <= |b| && MatchesAt(b, word, i);
      assert (a + b)[|a| + i..|a| + i + |word|] == b[i..i + |word|];
      assert MatchesAt(a + b, word, |a| + i);
    }
  }

  lemma {:induction false} ContainsInJoin(parts: seq<string>, sep: string, k: nat, word: string)
    requires k < |parts| && Contains(parts[k], word)
    ensures Contains(Join(parts, sep), word)
  {
    if |parts| > 1 {
      var rest := Join(parts[1..], sep);
      if k == 0 {
        ContainsInConcat(parts[0], sep + rest, word);
      } else {
        assert parts[1..][k - 1] == parts[k];
        ContainsInJoin(parts[1..], sep, k - 1, word);
        ContainsInConcat(sep, rest, word);
        ContainsInConcat(parts[0], sep + rest, word);
      }
    }
  }

  /** A banned word in the caption or in any single tag bans the meme. */
  lemma BannedPartBansContent(caption: string, tags: seq<string>)
    ensures Banned(caption) ==> Banned(Content(caption, tags))
    ensures forall k :: 0 <= k < |tags| && Banned(tags[k]) ==> Banned(Content(caption, tags))
  {
    var tail := " " + Join(tags, " ");
    if Banned(caption) {
      var w :| 0 <= w < |BannedWords| && Contains(caption, BannedWords[w]);
      ContainsInConcat(caption, tail, BannedWords[w]);
    }
    forall k | 0 <= k < |tags| && Banned(tags[k])
      ensures Banned(Content(caption, tags))
    {
      var w :| 0 <= w < |BannedWords| && Contains(tags[k], BannedWords[w]);
      ContainsInJoin(tags, " ", k, BannedWords[w]);
      ContainsInConcat(" ", Join(tags, " "), BannedWords[w]);
      ContainsInConcat(caption, tail, BannedWords[w]);
    }
  }

  // ---------------------------------------------------------------------
  // Accepting a meme

  /** The normalisation and checks applied to a body: the image is the url,
      the caption the trimmed title, the tags default to none, and the source
      names the payload's subreddit, or the requested one when it is absent.
      A body without an image, or whose caption and tags mention a banned
      word, is rejected. */
  function Decide(data: MemePayload, requested: string): (r: Decision)
    ensures r.Accepted? <==>
      OrElse(data.url, "") != "" && !Banned(Content(Trim(OrElse(data.title, "")), data.tags.GetOr([])))
    ensures r.Rejected? ==> r.reason != RequestFailed
    ensures r.Accepted? ==>
      && data.url == Some(r.meme.image) && r.meme.image != ""
      && r.meme.caption == Trim(OrElse(data.title, ""))
      && r.meme.tags == (if data.tags.Some? then data.tags.value else [])
      && r.meme.source == "r/" + OrElse(data.subreddit, requested)
  {
    var image := OrElse(data.url, "");
    var caption := Trim(OrElse(data.title, ""));
    var tags := data.tags.GetOr([]);
    if image == "" then Rejected(MissingImage)
    else if Banned(Content(caption, tags)) then Rejected(FilteredOut)
    else Accepted(MemeState(image, caption, tags, "r/" + OrElse(data.subreddit, requested)))
  }

  /** The decision for a whole network answer. */
  function Outcome(response: Response, requested: string): (r: Decision)
    ensures r.Accepted? ==> response.Body? && r == Decide(response.payload, requested)
    ensures (response.Failed? || response.NotOk?) ==> r == Rejected(RequestFailed)
  {
    match response
    case Failed => Rejected(RequestFailed)
    case NotOk(_) => Rejected(RequestFailed)
    case Body(data) => Decide(data, requested)
  }

  /** Every built-in meme carries no tags and the offline source. */
  lemma FallbacksAreOffline()
    ensures |FallbackMemes| == 5
    ensures forall m :: m in FallbackMemes ==> m.tags == [] && m.source == OfflineVault && m.image != ""
  {
  }

  // ---------------------------------------------------------------------
  // The view state

  class MemesViewState {
    var meme: Option<MemeState>
    var loading: bool
    var error: Option<string>

    constructor ()
      ensures meme == None && !loading && error == None
    {
      meme := None;
      loading := false;
      error := None;
    }

    /** The part of `fetchMeme` before the request: loading on, error cleared,
        a subreddit picked. `subPick` is the random index. */
    method StartFetch(subPick: nat) returns (requested: string)
      requires subPick < |WholesomeSubs|
      modifies this`loading, this`error
      ensures loading && error == None
      ensures requested == WholesomeSubs[subPick] && requested in WholesomeSubs
    {
      loading := true;
      error := None;
      requested := WholesomeSubs[subPick];
    }

    /** The part of `fetchMeme` after the request settles. An accepted meme is
        shown; any failure shows the built-in meme at `fallbackPick` with the
        backup-feed message. Loading ends in every case. */
    method FinishFetch(requested: string, response: Response, fallbackPick: nat)
      requires fallbackPick < |FallbackMemes|
      modifies this`meme, this`loading, this`error
      ensures !loading
      ensures var d := Outcome(response, requested);
        && (d.Accepted? ==> meme == Some(d.meme) && error == old(error))
        && (d.Rejected? ==> meme == Some(FallbackMemes[fallbackPick]) && error == Some(BackupFeedMessage))
    {
      var fallbacks := FallbackMemes;
      assert |fallbacks| == 5;
      var decision := Outcome(response, requested);
      if decision.Accepted? {
        meme := Some(decision.meme);
      } else if |fallbacks| > 0 {
        meme := Some(fallbacks[fallbackPick]);
        error := Some(BackupFeedMessage);
      } else {
        // The "could not load" branch: the built-in list is never empty.
        assert false;
      }
      loading := false;
    }
  }
}
