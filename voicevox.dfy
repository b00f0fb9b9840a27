/** The text-to-speech client: the bracket filter applied to text before synthesis, and the
    two-step HTTP exchange with the VOICEVOX engine, with the engine's replies as inputs. */
module Voicevox {
  import opened Base
  import opened Text

  const FullOpen: char := '（'
  const FullClose: char := '）'

  /** The index of the first `close` in `t`, provided no line feed comes before it: where the
      lazy `.*?` of a .NET regular expression stops, since `.` does not match `\n`. */
  function FindClose(t: string, close: char): (r: Option<nat>)
    requires close != '\n'
    ensures r.Some? ==> r.value < |t| && t[r.value] == close
    ensures r.Some? ==> forall k :: 0 <= k < r.value ==> t[k] != close && t[k] != '\n'
    ensures r.None? ==> forall k :: 0 <= k < |t| && t[k] == close ==> '\n' in t[..k]
  {
    if t == [] then None
    else if t[0] == close then Some(0)
    else if t[0] == '\n' then None
    else
      match FindClose(t[1..], close)
      case Some(k) => Some(k + 1)
      case None =>
        assert forall k :: 1 <= k <= |t| ==> t[1..][..k - 1] == t[1..k];
        None
  }

  /** The length of the match of `（.*?）|\(.*?\)` that starts at `s[0]`, if there is one. */
  function GroupLength(s: string): (r: Option<nat>)
    ensures r.Some? ==> 2 <= r.value <= |s| && (s[0] == FullOpen || s[0] == '(')
    ensures r.Some? ==> '\n' !in s[..r.value]
    ensures r.None? && s != [] && s[0] == '(' ==> FindClose(s[1..], ')').None?
    ensures r.None? && s != [] && s[0] == FullOpen ==> FindClose(s[1..], FullClose).None?
  {
    if s == [] then None
    else
      var close := if s[0] == FullOpen then FullClose else ')';
      if s[0] != FullOpen && s[0] != '(' then None
      else match FindClose(s[1..], close)
        case Some(k) =>
          assert s[..k + 2] == [s[0]] + s[1..][..k] + [close];
          Some(k + 2)
        case None => None
  }

  /** `Regex.Replace(s, "（.*?）|\\(.*?\\)", "")`: scanning left to right, every match is
      deleted and the scan resumes after it; a character where no match starts is kept. */
  function Strip(s: string): (r: string)
    decreases |s|
  {
    if s == [] then []
    else match GroupLength(s)
      case Some(n) => Strip(s[n..])
      case None => [s[0]] + Strip(s[1..])
  }

  /** No bracket pair of one kind, opened and closed on the same line, is left in `s`. */
  predicate NoCompleteGroup(s: string)
  {
    forall i :: 0 <= i < |s| ==>
      (s[i] == '(' ==> FindClose(s[i + 1..], ')').None?)
      && (s[i] == FullOpen ==> FindClose(s[i + 1..], FullClose).None?)
  }

  /** `RemoveBracketText`: strip the parenthetical groups, then trim. */
  function RemoveBracketText(s: string): (r: string)
    ensures r == [] || (!IsWhiteSpace(r[0]) && !IsWhiteSpace(r[|r| - 1]))
    ensures NoCompleteGroup(r)
    ensures multiset(r)['\n'] <= multiset(s)['\n']
    ensures NoCompleteGroup(s) ==> r == Trim(s)
  {
    RemoveBracketFacts(s);
    Trim(Strip(s))
  }

  /** The cleaned text keeps no complete group and gains no line feed; text without a complete
      group is only trimmed. */
  lemma RemoveBracketFacts(s: string)
    ensures NoCompleteGroup(Trim(Strip(s)))
    ensures multiset(Trim(Strip(s)))['\n'] <= multiset(s)['\n']
    ensures NoCompleteGroup(s) ==> Trim(Strip(s)) == Trim(s)
  {
    if NoCompleteGroup(s) {
      StripFixesGroupFree(s);
    }
    var stripped := Strip(s);
    StripLeavesNoGroup(s);
    StripKeepsLineFeeds(s);
    TrimKeepsNoGroup(stripped);
    TrimCount(stripped, '\n');
  }

  /** Where no match starts, `Regex.Replace` changes nothing. */
  lemma {:induction false} StripFixesGroupFree(s: string)
    requires NoCompleteGroup(s)
    ensures Strip(s) == s
    decreases |s|
  {
    if s != [] {
      assert s[0 + 1..] == s[1..];
      assert GroupLength(s).None?;
      var t := s[1..];
      forall i | 0 <= i < |t|
        ensures (t[i] == '(' ==> FindClose(t[i + 1..], ')').None?)
        ensures (t[i] == FullOpen ==> FindClose(t[i + 1..], FullClose).None?)
      {
        assert t[i] == s[i + 1] && t[i + 1..] == s[i + 1 + 1..];
      }
      StripFixesGroupFree(t);
    }
  }

  /** No match starts at any of the first `i` positions of `s`. */
  predicate NoMatchBefore(s: string, i: nat)
    decreases i
  {
    i == 0 || (s != [] && GroupLength(s).None? && NoMatchBefore(s[1..], i - 1))
  }

  /** The scan keeps everything before the leftmost match, deletes that match and goes on
      after it. */
  lemma StripLeftmost(s: string, i: nat, n: nat)
    requires i < |s| && GroupLength(s[i..]) == Some(n)
    requires NoMatchBefore(s, i)
    ensures i + n <= |s| && Strip(s) == s[..i] + Strip(s[i + n..])
  {
    StripSplits(s, i, n);
  }

  /** `Strip(s)` is the first `i` characters followed by what is left of `s[i + n..]`. */
  predicate SplitsAt(s: string, i: nat, n: nat)
  {
    i + n <= |s| && Strip(s) == s[..i] + Strip(s[i + n..])
  }

  lemma {:induction false} StripSplits(s: string, i: nat, n: nat)
    requires i < |s| && GroupLength(s[i..]) == Some(n)
    requires NoMatchBefore(s, i)
    ensures SplitsAt(s, i, n)
    decreases i
  {
    if i == 0 {
      assert s[0..] == s && s[..0] == [];
      StripMatchStep(s, n);
    } else {
      assert s[1..][i - 1..] == s[i..];
      StripSplits(s[1..], i - 1, n);
      StripKeepStep(s, i, n);
    }
  }

  /** A match at the front is deleted and the scan resumes after it. */
  lemma StripMatchStep(s: string, n: nat)
    requires GroupLength(s) == Some(n)
    ensures n <= |s| && Strip(s) == Strip(s[n..])
  {
  }

  /** One kept character in front of the leftmost match: the step of `StripSplits`. */
  lemma StripKeepStep(s: string, i: nat, n: nat)
    requires 0 < i <= |s|
    requires GroupLength(s).None?
    requires SplitsAt(s[1..], i - 1, n)
    ensures SplitsAt(s, i, n)
  {
    var t := s[1..];
    assert Strip(s) == [s[0]] + Strip(t);
    assert t[i - 1 + n..] == s[i + n..];
    ConsPrefix(s, i);
    ConcatAssoc([s[0]], t[..i - 1], Strip(s[i + n..]));
  }

  /** Putting the first character back in front of a prefix of the tail. */
  lemma ConsPrefix(s: string, i: nat)
    requires 0 < i <= |s|
    ensures [s[0]] + s[1..][..i - 1] == s[..i]
  {
  }

  lemma ConcatAssoc(a: string, b: string, c: string)
    ensures a + (b + c) == (a + b) + c
  {
  }

  /** `NoMatchBefore(s, i)` says that `GroupLength` finds no match at any position below `i`. */
  lemma {:induction false} NoMatchBeforeMeans(s: string, i: nat)
    requires i <= |s|
    ensures NoMatchBefore(s, i) <==> forall j :: 0 <= j < i ==> GroupLength(s[j..]).None?
    decreases i
  {
    if i > 0 {
      var t := s[1..];
      NoMatchBeforeMeans(t, i - 1);
      assert s[0..] == s;
      if forall j :: 0 <= j < i ==> GroupLength(s[j..]).None? {
        forall j | 0 <= j < i - 1
          ensures GroupLength(t[j..]).None?
        {
          assert t[j..] == s[j + 1..];
        }
      }
      if NoMatchBefore(s, i) {
        forall j | 0 < j < i
          ensures GroupLength(s[j..]).None?
        {
          assert s[j..] == t[j - 1..];
        }
      }
    }
  }

  /** Cleaning text twice gives what cleaning it once gives. */
  lemma RemoveBracketIdempotent(s: string)
    ensures RemoveBracketText(RemoveBracketText(s)) == RemoveBracketText(s)
  {
    var r := RemoveBracketText(s);
    TrimUnchanged(r);
  }

  /** Deleting matched groups never lets a bracket close on the line it opened. */
  lemma {:induction false} StripPreservesOpenLine(t: string, c: char)
    requires c != '\n' && FindClose(t, c).None?
    ensures FindClose(Strip(t), c).None?
    decreases |t|
  {
    if t == [] {
    } else if t[0] == '\n' {
      assert GroupLength(t).None?;
      assert Strip(t) == [t[0]] + Strip(t[1..]);
    } else {
      assert t[0] != c;
      assert FindClose(t[1..], c).None?;
      match GroupLength(t)
      case Some(n) =>
        FindCloseNoneSuffix(t, c, n);
        StripPreservesOpenLine(t[n..], c);
      case None =>
        StripPreservesOpenLine(t[1..], c);
        assert Strip(t) == [t[0]] + Strip(t[1..]);
    }
  }

  /** When no `c` appears in the first `n` characters and no line feed either, the search for
      `c` fails on `t` exactly when it fails on `t[n..]`. */
  lemma {:induction false} FindCloseNoneSuffix(t: string, c: char, n: nat)
    requires c != '\n' && n <= |t| && FindClose(t, c).None?
    requires '\n' !in t[..n]
    ensures FindClose(t[n..], c).None?
    decreases n
  {
    if n > 0 {
      assert t[0] != '\n' by { assert t[0] == t[..n][0]; }
      assert t[0] != c;
      assert t[1..][..n - 1] == t[1..n];
      assert '\n' !in t[1..][..n - 1];
      FindCloseNoneSuffix(t[1..], c, n - 1);
      assert t[1..][n - 1..] == t[n..];
    }
  }

  /** The result of `Strip` holds no bracket pair that opens and closes on one line. */
  lemma {:induction false} StripLeavesNoGroup(s: string)
    ensures NoCompleteGroup(Strip(s))
    decreases |s|
  {
    if s != [] {
      match GroupLength(s)
      case Some(n) =>
        StripLeavesNoGroup(s[n..]);
      case None =>
        var rest := Strip(s[1..]);
        StripLeavesNoGroup(s[1..]);
        var r := [s[0]] + rest;
        assert r[1..] == rest;
        if s[0] == '(' { StripPreservesOpenLine(s[1..], ')'); }
        if s[0] == FullOpen { StripPreservesOpenLine(s[1..], FullClose); }
        forall i | 1 <= i < |r|
          ensures (r[i] == '(' ==> FindClose(r[i + 1..], ')').None?)
                  && (r[i] == FullOpen ==> FindClose(r[i + 1..], FullClose).None?)
        {
          assert r[i] == rest[i - 1] && r[i + 1..] == rest[i..];
        }
    }
  }

  /** A failed search still fails on any prefix. */
  lemma {:induction false} FindCloseNonePrefix(t: string, c: char, m: nat)
    requires c != '\n' && m <= |t| && FindClose(t, c).None?
    ensures FindClose(t[..m], c).None?
    decreases m
  {
    if m > 0 && t[0] != '\n' {
      assert t[..m][1..] == t[1..][..m - 1];
      FindCloseNonePrefix(t[1..], c, m - 1);
    }
  }

  /** Trimming a string without complete groups cannot create one. */
  lemma TrimKeepsNoGroup(s: string)
    requires NoCompleteGroup(s)
    ensures NoCompleteGroup(Trim(s))
  {
    var r := Trim(s);
    var a := LeadingWhiteSpace(s);
    forall i | 0 <= i < |r|
      ensures (r[i] == '(' ==> FindClose(r[i + 1..], ')').None?)
              && (r[i] == FullOpen ==> FindClose(r[i + 1..], FullClose).None?)
    {
      TrimmedSuffix(s, a, r, i);
    }
  }

  /** A character of the trimmed text, with what follows it, is found in the original. */
  lemma TrimmedSuffix(s: string, a: nat, r: string, i: nat)
    requires NoCompleteGroup(s)
    requires a + |r| <= |s| && r == s[a..a + |r|] && i < |r|
    ensures r[i] == '(' ==> FindClose(r[i + 1..], ')').None?
    ensures r[i] == FullOpen ==> FindClose(r[i + 1..], FullClose).None?
  {
    var t := s[a + i + 1..];
    assert r[i] == s[a + i];
    assert r[i + 1..] == t[..|r| - i - 1];
    if r[i] == '(' {
      FindCloseNonePrefix(t, ')', |r| - i - 1);
    }
    if r[i] == FullOpen {
      FindCloseNonePrefix(t, FullClose, |r| - i - 1);
    }
  }

  /** Groups never contain a line feed, so stripping keeps every line break. */
  lemma {:induction false} StripKeepsLineFeeds(s: string)
    ensures multiset(Strip(s))['\n'] == multiset(s)['\n']
    decreases |s|
  {
    if s != [] {
      match GroupLength(s)
      case Some(n) =>
        StripKeepsLineFeeds(s[n..]);
        SplitCount(s, n, '\n');
        assert multiset(s[..n])['\n'] == 0;
      case None =>
        StripKeepsLineFeeds(s[1..]);
        SplitCount(s, 1, '\n');
        SplitCount([s[0]] + Strip(s[1..]), 1, '\n');
        assert ([s[0]] + Strip(s[1..]))[..1] == s[..1] && ([s[0]] + Strip(s[1..]))[1..] == Strip(s[1..]);
    }
  }

  /** Counting a character in two pieces of a string. */
  lemma SplitCount(s: string, n: nat, c: char)
    requires n <= |s|
    ensures multiset(s)[c] == multiset(s[..n])[c] + multiset(s[n..])[c]
  {
    assert s == s[..n] + s[n..];
  }

  /** Trimming never adds a character. */
  lemma TrimCount(s: string, c: char)
    ensures multiset(Trim(s))[c] <= multiset(s)[c]
  {
    var r := Trim(s);
    var a := LeadingWhiteSpace(s);
    SliceCount(s, a, a + |r|, c);
  }

  /** A slice holds no more copies of a character than the whole. */
  lemma SliceCount(s: string, i: nat, j: nat, c: char)
    requires i <= j <= |s|
    ensures multiset(s[i..j])[c] <= multiset(s)[c]
  {
    var front, middle, back := s[..i], s[i..j], s[j..];
    assert s == front + middle + back;
    assert multiset(s) == multiset(front) + multiset(middle) + multiset(back);
  }

  /** Text without opening brackets is only trimmed. */
  lemma {:induction false} NoBracketsOnlyTrimmed(s: string)
    requires '(' !in s && FullOpen !in s
    ensures Strip(s) == s
    ensures RemoveBracketText(s) == Trim(s)
    decreases |s|
  {
    if s != [] {
      assert GroupLength(s).None?;
      NoBracketsOnlyTrimmed(s[1..]);
    }
  }

  /** A full-width group is deleted together with its contents. */
  lemma DeletesFullWidthGroup()
    ensures RemoveBracketText("はい（小声）") == "はい"
  {
    StripDeletesFullWidthGroup();
    TrimUnchanged("はい");
  }

  /** The deletion pass removes `（小声）` after `はい`. */
  lemma StripDeletesFullWidthGroup()
    ensures Strip("はい（小声）") == "はい"
  {
    var g := "（小声）";
    assert g[1..] == "小声）" && g[1..][1..] == "声）" && g[1..][1..][1..] == "）";
    assert FindClose(g[1..][1..][1..], FullClose) == Some(0);
    assert FindClose(g[1..][1..], FullClose) == Some(1);
    assert FindClose(g[1..], FullClose) == Some(2);
    assert GroupLength(g) == Some(4);
    assert Strip(g) == [];
    assert "い" + g == "い（小声）";
    assert Strip("い（小声）") == "い" by { assert "い（小声）"[1..] == g; }
    assert Strip("はい（小声）") == "はい" by { assert "はい（小声）"[1..] == "い（小声）"; }
  }

  /** Of `(a(b)c)` the shortest match `(a(b)` goes and `c)` stays. */
  lemma DeletesShortestMatch()
    ensures RemoveBracketText("(a(b)c)") == "c)"
  {
    StripDeletesShortestMatch();
    TrimUnchanged("c)");
  }

  /** The deletion pass removes `(a(b)` from `(a(b)c)`. */
  lemma StripDeletesShortestMatch()
    ensures Strip("(a(b)c)") == "c)"
  {
    var s := "(a(b)c)";
    assert s[1..] == "a(b)c)" && s[1..][1..] == "(b)c)" && s[1..][1..][1..] == "b)c)";
    assert s[1..][1..][1..][1..] == ")c)";
    assert FindClose(s[1..][1..][1..][1..], ')') == Some(0);
    assert FindClose(s[1..][1..][1..], ')') == Some(1);
    assert FindClose(s[1..][1..], ')') == Some(2);
    assert FindClose(s[1..], ')') == Some(3);
    assert GroupLength(s) == Some(5);
    assert s[5..] == "c)";
    assert Strip(")") == ")" by { assert FindClose([], ')') == None; }
    assert Strip("c)") == "c)" by { assert "c)"[1..] == ")"; }
  }

  /** A half-width bracket is not closed by a full-width one. */
  lemma KeepsMixedPair()
    ensures RemoveBracketText("(a）") == "(a）"
  {
    StripKeepsMixedPair();
    TrimUnchanged("(a）");
  }

  /** The deletion pass leaves `(a）` alone. */
  lemma StripKeepsMixedPair()
    ensures Strip("(a）") == "(a）"
  {
    var s := "(a）";
    assert s[1..] == "a）" && s[1..][1..] == "）";
    assert FindClose(s[1..][1..], ')') == None by { assert "）"[1..] == []; }
    assert FindClose(s[1..], ')') == None;
    assert Strip("）") == "）" by { assert "）"[1..] == []; }
    assert Strip("a）") == "a）";
  }

  /** A bracket whose partner is on the next line is not matched. */
  lemma KeepsGroupAcrossLineFeed()
    ensures RemoveBracketText("(a\nb)") == "(a\nb)"
  {
    StripKeepsGroupAcrossLineFeed();
    TrimUnchanged("(a\nb)");
  }

  /** The deletion pass leaves a group split by a line feed alone. */
  lemma StripKeepsGroupAcrossLineFeed()
    ensures Strip("(a\nb)") == "(a\nb)"
  {
    var s := "(a\nb)";
    assert s[1..] == "a\nb)" && s[1..][1..] == "\nb)";
    assert FindClose(s[1..], ')') == None;
    assert Strip(")") == ")" by { assert FindClose([], ')') == None; }
    assert Strip("b)") == "b)" by { assert "b)"[1..] == ")"; }
    assert Strip("\nb)") == "\nb)" by { assert "\nb)"[1..] == "b)"; }
    assert Strip("a\nb)") == "a\nb)" by { assert "a\nb)"[1..] == "\nb)"; }
  }

  /** Trimming is the identity on text that neither starts nor ends with white space. */
  lemma TrimUnchanged(s: string)
    requires s == [] || (!IsWhiteSpace(s[0]) && !IsWhiteSpace(s[|s| - 1]))
    ensures Trim(s) == s
  {
    var r := Trim(s);
    var a := LeadingWhiteSpace(s);
    if s != [] {
      assert a == 0;
    }
  }

  // ---------------------------------------------------------------------------------------
  // The HTTP exchange with the engine

  const QueryError := "VOICEVOX audio_query エラー"
  const SynthesisError := "VOICEVOX synthesis エラー"

  /** What one `HttpClient.PostAsync` produced: a reply with a status code and a body, or the
      message of the exception it threw (unreachable engine, refused connection, ...). */
  datatype HttpReply<T> = Reply(status: int, body: T) | SendFailed(message: string)

  /** `HttpResponseMessage.IsSuccessStatusCode`. */
  predicate IsSuccessStatusCode(status: int)
  {
    200 <= status <= 299
  }

  /** A request sent to the engine: `POST /audio_query?text=..&speaker=..` or
      `POST /synthesis?speaker=..` with a JSON body. */
  datatype EngineRequest =
    | AudioQueryRequest(text: string, speaker: int)
    | SynthesisRequest(speaker: int, body: string)

  /** The four scale fields of the engine's audio query that the client adjusts. */
  datatype AudioQuery = AudioQuery(speedScale: real, pitchScale: real, intonationScale: real, volumeScale: real)

  /** What the speech collaborator hands the tool handler: the query document and the WAV
      bytes (null is possible at the handler's interface), or the message of the exception. */
  datatype TtsResult = Synthesized(queryJson: string, wav: Option<seq<Byte>>) | TtsFailed(message: string)

  /** `GenerateAudioAsync`. The engine's two replies, the outcome of `JsonUtility.FromJson` on
      the first one, and `JsonUtility.ToJson` are inputs; `sent` lists the requests issued. */
  method GenerateAudio(
    styleId: int, text: string,
    speedScale: real, pitchScale: real, intonationScale: real, volumeScale: real,
    queryReply: HttpReply<string>, parsed: Result<AudioQuery>, toJson: AudioQuery -> string,
    synthesisReply: HttpReply<seq<Byte>>)
    returns (result: TtsResult, sent: seq<EngineRequest>)
    // the query is built from the filtered text
    ensures 1 <= |sent| <= 2 && sent[0] == AudioQueryRequest(RemoveBracketText(text), styleId)
    // the first step's failures
    ensures queryReply.SendFailed? ==> result == TtsFailed(queryReply.message) && |sent| == 1
    ensures queryReply.Reply? && !IsSuccessStatusCode(queryReply.status) ==>
              result == TtsFailed(QueryError) && |sent| == 1
    ensures queryReply.Reply? && IsSuccessStatusCode(queryReply.status) && parsed.Err? ==>
              result == TtsFailed(parsed.message) && |sent| == 1
    // synthesis is requested with the raw query document: the adjusted one is discarded
    ensures |sent| == 2 <==>
              queryReply.Reply? && IsSuccessStatusCode(queryReply.status) && parsed.Ok?
    ensures |sent| == 2 ==> sent[1] == SynthesisRequest(styleId, queryReply.body)
    // the second step's failures
    ensures |sent| == 2 && synthesisReply.SendFailed? ==> result == TtsFailed(synthesisReply.message)
    ensures |sent| == 2 && synthesisReply.Reply? && !IsSuccessStatusCode(synthesisReply.status) ==>
              result == TtsFailed(SynthesisError)
    // success returns the raw query document and the synthesised bytes
    ensures result.Synthesized? <==>
              |sent| == 2 && synthesisReply.Reply? && IsSuccessStatusCode(synthesisReply.status)
    ensures result.Synthesized? ==>
              result.queryJson == queryReply.body && result.wav == Some(synthesisReply.body)
  {
    var filtered := RemoveBracketText(text);
    sent := [AudioQueryRequest(filtered, styleId)];
    if queryReply.SendFailed? {
      return TtsFailed(queryReply.message), sent;
    }
    if !IsSuccessStatusCode(queryReply.status) {
      return TtsFailed(QueryError), sent;
    }
    var queryJson := queryReply.body;
    if parsed.Err? {
      return TtsFailed(parsed.message), sent;
    }
    var q := parsed.value;
    q := q.(speedScale := speedScale);
    q := q.(pitchScale := pitchScale);
    q := q.(intonationScale := intonationScale);
    q := q.(volumeScale := volumeScale);
    var modifiedQueryJson := toJson(q);
    modifiedQueryJson := queryJson;
    sent := sent + [SynthesisRequest(styleId, modifiedQueryJson)];
    if synthesisReply.SendFailed? {
      return TtsFailed(synthesisReply.message), sent;
    }
    if !IsSuccessStatusCode(synthesisReply.status) {
      return TtsFailed(SynthesisError), sent;
    }
    result := Synthesized(modifiedQueryJson, Some(synthesisReply.body));
  }
}
