/** The notification post-processing of lib/services/newsNotificationService.ts:
    text normalisation, word-overlap title similarity, news duplicate
    detection, order-preserving de-duplication, title truncation, the price
    and volume alert rules, and the combine-and-sort of a full fetch. The
    demo data service's quote and news fetches are parameters; `Date.now()`
    is the parameter `now`. */
module NewsNotificationService {
  import opened Wrappers
  import opened Types
  import opened Seqs
  import opened Text

  // ---------------------------------------------------------------------
  // normalizeText

  /** `replace(/[^\w\s]/g, '')`: keep only word and space characters. */
  function StripPunctuation(s: string): (r: string)
    ensures forall i :: 0 <= i < |r| ==> (IsWordChar(r[i]) || IsSpace(r[i])) && r[i] in s
  {
    Filter(s, c => IsWordChar(c) || IsSpace(c))
  }

  /** The input without its leading white space. */
  function SkipSpaces(s: string): (r: string)
    ensures |r| <= |s| && r == s[|s| - |r|..]
    ensures |r| > 0 ==> !IsSpace(r[0])
  {
    if |s| > 0 && IsSpace(s[0]) then SkipSpaces(s[1..]) else s
  }

  /** The input without its trailing white space. */
  function TrimEnd(s: string): (r: string)
    ensures |r| <= |s| && r == s[..|r|]
    ensures |r| > 0 ==> !IsSpace(r[|r| - 1])
  {
    if |s| > 0 && IsSpace(s[|s| - 1]) then TrimEnd(s[..|s| - 1]) else s
  }

  /** `trim()`. */
  function Trim(s: string): string
  {
    TrimEnd(SkipSpaces(s))
  }

  /** `replace(/\s+/g, ' ')`: every run of white space becomes one space. */
  function CollapseSpaces(s: string): string
    decreases |s|
  {
    if |s| == 0 then []
    else if IsSpace(s[0]) then [' '] + CollapseSpaces(SkipSpaces(s[1..]))
    else [s[0]] + CollapseSpaces(s[1..])
  }

  /** `normalizeText`: lower-case, drop punctuation, collapse white space, trim. */
  function NormalizeText(s: string): string
  {
    Trim(CollapseSpaces(StripPunctuation(ToLower(s))))
  }

  /** A character a normalised text may hold: a lower-case word character or
      the plain space. */
  predicate NormalChar(c: char)
  {
    c == ' ' || (IsWordChar(c) && !IsUpperAscii(c))
  }

  predicate NoDoubleSpace(t: string)
  {
    forall i :: 0 < i < |t| ==> t[i - 1] != ' ' || t[i] != ' '
  }

  /** What `normalizeText` produces: lower-case word characters separated by
      single spaces, with no space at either end. */
  predicate IsNormal(t: string)
  {
    && (forall i :: 0 <= i < |t| ==> NormalChar(t[i]))
    && NoDoubleSpace(t)
    && (|t| > 0 ==> t[0] != ' ' && t[|t| - 1] != ' ')
  }

  /** Collapsing the white space of lower-case word and space characters
      leaves single plain spaces, and starts with a space exactly when the
      input does. */
  lemma {:induction false} CollapseSpacesNormal(s: string)
    requires forall i :: 0 <= i < |s| ==> IsSpace(s[i]) || (IsWordChar(s[i]) && !IsUpperAscii(s[i]))
    ensures var r := CollapseSpaces(s);
      && (forall i :: 0 <= i < |r| ==> NormalChar(r[i]))
      && NoDoubleSpace(r)
      && (|r| > 0 <==> |s| > 0)
      && (|r| > 0 ==> (r[0] == ' ' <==> IsSpace(s[0])))
    decreases |s|
  {
    if |s| > 0 {
      if IsSpace(s[0]) {
        var t := SkipSpaces(s[1..]);
        assert forall i :: 0 <= i < |t| ==> t[i] == s[1..][|s| - 1 - |t| + i];
        CollapseSpacesNormal(t);
        assert CollapseSpaces(s) == [' '] + CollapseSpaces(t);
        NoDoubleSpaceCons(' ', CollapseSpaces(t));
        NormalCharsCons(' ', CollapseSpaces(t));
      } else {
        CollapseSpacesNormal(s[1..]);
        assert CollapseSpaces(s) == [s[0]] + CollapseSpaces(s[1..]);
        NoDoubleSpaceCons(s[0], CollapseSpaces(s[1..]));
        NormalCharsCons(s[0], CollapseSpaces(s[1..]));
      }
    }
  }

  lemma NormalCharsCons(c: char, t: string)
    requires NormalChar(c)
    requires forall i :: 0 <= i < |t| ==> NormalChar(t[i])
    ensures forall i :: 0 <= i < |[c] + t| ==> NormalChar(([c] + t)[i])
  {
    assert forall i :: 0 < i < |[c] + t| ==> ([c] + t)[i] == t[i - 1];
  }

  lemma NoDoubleSpaceSlice(t: string, i: nat, j: nat)
    requires NoDoubleSpace(t) && i <= j <= |t|
    ensures NoDoubleSpace(t[i..j])
  {
    assert forall k :: 0 <= k < j - i ==> t[i..j][k] == t[i + k];
  }

  lemma NoDoubleSpaceCons(c: char, t: string)
    requires NoDoubleSpace(t)
    requires |t| > 0 ==> c != ' ' || t[0] != ' '
    ensures NoDoubleSpace([c] + t)
  {
    assert forall k :: 0 < k <= |t| ==> ([c] + t)[k] == t[k - 1];
  }

  /** Lower-casing and stripping punctuation leave lower-case word
      characters and white space. */
  lemma StrippedCharacters(s: string)
    ensures var stripped := StripPunctuation(ToLower(s));
      forall i :: 0 <= i < |stripped| ==> IsSpace(stripped[i]) || (IsWordChar(stripped[i]) && !IsUpperAscii(stripped[i]))
  {
    ToLowerIdempotent(s);
    var lower := ToLower(s);
    var stripped := StripPunctuation(lower);
    forall i | 0 <= i < |stripped|
      ensures !IsUpperAscii(stripped[i])
    {
      var k :| 0 <= k < |lower| && lower[k] == stripped[i];
    }
  }

  /** Trimming a text of normal characters without double spaces gives a
      normal text. */
  lemma TrimNormal(t: string)
    requires forall i :: 0 <= i < |t| ==> NormalChar(t[i])
    requires NoDoubleSpace(t)
    ensures IsNormal(Trim(t))
  {
    var k := TrimSlice(t);
    NoDoubleSpaceSlice(t, k, k + |Trim(t)|);
    SliceChars(t, k, k + |Trim(t)|);
    UnspacedEnds(Trim(t));
  }

  /** The trimmed text is a slice of the input whose ends are not white
      space. */
  lemma TrimSlice(t: string) returns (k: nat)
    ensures k + |Trim(t)| <= |t| && Trim(t) == t[k..k + |Trim(t)|]
    ensures |Trim(t)| > 0 ==> !IsSpace(Trim(t)[0]) && !IsSpace(Trim(t)[|Trim(t)| - 1])
  {
    var front := SkipSpaces(t);
    var r := TrimEnd(front);
    k := |t| - |front|;
    assert front == t[k..];
    assert r == front[..|r|];
    assert |r| > 0 ==> r[0] == front[0];
  }

  /** Ends that are not white space are not the plain space. */
  lemma UnspacedEnds(r: string)
    requires |r| > 0 ==> !IsSpace(r[0]) && !IsSpace(r[|r| - 1])
    ensures |r| > 0 ==> r[0] != ' ' && r[|r| - 1] != ' '
  {
    assert IsSpace(' ');
  }

  lemma SliceChars(t: string, i: nat, j: nat)
    requires i <= j <= |t|
    requires forall k :: 0 <= k < |t| ==> NormalChar(t[k])
    ensures forall k :: 0 <= k < j - i ==> NormalChar(t[i..j][k])
  {
    assert forall k :: 0 <= k < j - i ==> t[i..j][k] == t[i + k];
  }

  /** Every normalised text is normal. */
  lemma NormalizeTextIsNormal(s: string)
    ensures IsNormal(NormalizeText(s))
  {
    StrippedCharacters(s);
    CollapseSpacesNormal(StripPunctuation(ToLower(s)));
    TrimNormal(CollapseSpaces(StripPunctuation(ToLower(s))));
  }

  /** A normal text passes through `CollapseSpaces` unchanged. */
  lemma {:induction false} CollapseSpacesOfNormal(t: string)
    requires forall i :: 0 <= i < |t| ==> NormalChar(t[i])
    requires NoDoubleSpace(t)
    ensures CollapseSpaces(t) == t
    decreases |t|
  {
    if |t| > 0 {
      NoDoubleSpaceSlice(t, 1, |t|);
      assert forall i :: 0 <= i < |t| - 1 ==> t[1..][i] == t[i + 1];
      CollapseSpacesOfNormal(t[1..]);
      if IsSpace(t[0]) {
        assert t[0] == ' ';
        assert |t| > 1 ==> t[1] != ' ' && NormalChar(t[1]);
        assert |t| > 1 ==> !IsSpace(t[1]);
        assert SkipSpaces(t[1..]) == t[1..];
      }
    }
  }

  /** Lower-casing and stripping punctuation keep a normal text as it is. */
  lemma StripOfNormal(t: string)
    requires forall i :: 0 <= i < |t| ==> NormalChar(t[i])
    ensures StripPunctuation(ToLower(t)) == t
  {
    assert ToLower(t) == t;
    FilterAll(t, c => IsWordChar(c) || IsSpace(c));
  }

  /** Normalising a normal text changes nothing. */
  lemma NormalizeTextOfNormal(t: string)
    requires IsNormal(t)
    ensures NormalizeText(t) == t
  {
    StripOfNormal(t);
    CollapseSpacesOfNormal(t);
    assert SkipSpaces(t) == t;
    assert TrimEnd(t) == t;
  }

  /** Normalising twice is normalising once. */
  lemma NormalizeTextIdempotent(s: string)
    ensures NormalizeText(NormalizeText(s)) == NormalizeText(s)
  {
    NormalizeTextIsNormal(s);
    NormalizeTextOfNormal(NormalizeText(s));
  }

  /** Normalisation ignores case. */
  lemma NormalizeTextIgnoresCase(s: string)
    ensures NormalizeText(ToUpper(s)) == NormalizeText(s)
  {
    ToLowerOfUpper(s);
  }

  // ---------------------------------------------------------------------
  // areTitlesSimilar

  /** `split(' ')`. */
  function Split(s: string): (parts: seq<string>)
    ensures |parts| >= 1
    ensures forall k :: 0 <= k < |parts| ==> ' ' !in parts[k]
  {
    if |s| == 0 then [""]
    else
      var rest := Split(s[1..]);
      if s[0] == ' ' then [""] + rest
      else [[s[0]] + rest[0]] + rest[1..]
  }

  /** `join(' ')`. */
  function Join(parts: seq<string>): string
    requires |parts| >= 1
  {
    if |parts| == 1 then parts[0] else parts[0] + " " + Join(parts[1..])
  }

  /** Splitting loses nothing: joining the pieces back gives the text. */
  lemma {:induction false} JoinSplit(s: string)
    ensures Join(Split(s)) == s
  {
    if |s| > 0 {
      var rest := Split(s[1..]);
      JoinSplit(s[1..]);
      if s[0] == ' ' {
        assert ([""] + rest)[1..] == rest;
      } else {
        var parts := [[s[0]] + rest[0]] + rest[1..];
        if |rest| > 1 {
          assert parts[1..] == rest[1..];
          assert Join(rest) == rest[0] + " " + Join(rest[1..]);
        }
      }
    }
  }

  /** The words of a normalised title longer than three characters. */
  function LongWords(normalized: string): (words: seq<string>)
    ensures forall k :: 0 <= k < |words| ==> |words[k]| > 3 && ' ' !in words[k]
  {
    Filter(Split(normalized), w => |w| > 3)
  }

  /** `words1.filter(word => words2.includes(word)).length`. */
  function MatchCount(words1: seq<string>, words2: seq<string>): (m: nat)
    ensures m <= |words1|
  {
    |Filter(words1, w => w in words2)|
  }

  /** At least 80% of either word list is matched; false when either list
      is empty. */
  function WordsOverlap(words1: seq<string>, words2: seq<string>): bool
  {
    if |words1| == 0 || |words2| == 0 then false
    else
      var matching := MatchCount(words1, words2);
      matching as real / |words1| as real >= 0.8 || matching as real / |words2| as real >= 0.8
  }

  /** `areTitlesSimilar`: equal once normalised, or at least 80% of either
      list of long words matches. */
  function AreTitlesSimilar(title1: string, title2: string): bool
  {
    var normalized1 := NormalizeText(title1);
    var normalized2 := NormalizeText(title2);
    normalized1 == normalized2 || WordsOverlap(LongWords(normalized1), LongWords(normalized2))
  }

  lemma ProductNonnegative(a: real, b: real)
    requires a >= 0.0 && b >= 0.0
    ensures a * b >= 0.0
  {
  }

  lemma ProductPositive(a: real, b: real)
    requires a > 0.0 && b > 0.0
    ensures a * b > 0.0
  {
  }

  /** Dividing by a positive number and comparing is comparing with the
      product. */
  lemma QuotientAtLeast(x: real, d: real, c: real)
    requires d > 0.0
    ensures x / d >= c <==> x >= c * d
  {
    var q := x / d;
    assert q * d == x;
    if q >= c {
      ProductNonnegative(q - c, d);
      assert (q - c) * d == q * d - c * d;
    } else {
      ProductPositive(c - q, d);
      assert (c - q) * d == c * d - q * d;
    }
  }

  /** A ratio reaches 0.8 exactly when five times the count reaches four
      times the total. */
  lemma RatioAtLeastFourFifths(m: nat, n: nat)
    requires n > 0
    ensures m as real / n as real >= 0.8 <==> 5 * m >= 4 * n
  {
    QuotientAtLeast(m as real, n as real, 0.8);
  }

  /** The overlap rule in whole numbers: both lists are non-empty and the
      matching count is at least four fifths of either list. */
  lemma WordsOverlapRule(words1: seq<string>, words2: seq<string>)
    ensures var matching := MatchCount(words1, words2);
      WordsOverlap(words1, words2) <==>
        |words1| > 0 && |words2| > 0 && (5 * matching >= 4 * |words1| || 5 * matching >= 4 * |words2|)
  {
    if |words1| > 0 && |words2| > 0 {
      RatioAtLeastFourFifths(MatchCount(words1, words2), |words1|);
      RatioAtLeastFourFifths(MatchCount(words1, words2), |words2|);
    }
  }

  /** A word list without long words overlaps nothing, and a list of long
      words all found in the other list overlaps it. */
  lemma WordsOverlapExtremes(words1: seq<string>, words2: seq<string>)
    ensures |words1| == 0 || |words2| == 0 ==> !WordsOverlap(words1, words2)
    ensures |words1| > 0 && |words2| > 0 && (forall k :: 0 <= k < |words1| ==> words1[k] in words2) ==> WordsOverlap(words1, words2)
  {
    if |words1| > 0 && |words2| > 0 && (forall k :: 0 <= k < |words1| ==> words1[k] in words2) {
      FilterAll(words1, w => w in words2);
      WordsOverlapRule(words1, words2);
    }
  }

  /** Every title is similar to itself and to its upper-cased form. */
  lemma AreTitlesSimilarReflexive(title: string)
    ensures AreTitlesSimilar(title, title)
    ensures AreTitlesSimilar(ToUpper(title), title)
  {
    NormalizeTextIgnoresCase(title);
  }

  // ---------------------------------------------------------------------
  // truncateTitle

  /** The default `maxLength` of `truncateTitle`. */
  const DefaultTitleLength := 60

  /** `truncateTitle`: a title longer than `maxLength` keeps its first
      `maxLength - 3` characters (none when that is negative, as
      `substring` clamps) followed by "...". */
  function TruncateTitle(title: string, maxLength: int): (r: string)
    ensures |title| <= maxLength ==> r == title
    ensures |title| > maxLength ==> 3 <= |r| <= |title| + 3 && r == title[..|r| - 3] + "..."
    ensures |title| > maxLength && maxLength >= 3 ==> |r| == maxLength
    ensures maxLength >= 3 ==> |r| <= maxLength
  {
    if |title| <= maxLength then title
    else
      var keep := if maxLength - 3 < 0 then 0 else maxLength - 3;
      title[..keep] + "..."
  }

  // ---------------------------------------------------------------------
  // convertNewsToNotifications

  /** `convertNewsToNotifications`: one unread news notification per item,
      in order, carrying the given symbol. */
  function ConvertNewsToNotifications(news: seq<StockNews>, symbol: Option<string>): (ns: seq<NotificationData>)
    ensures |ns| == |news|
    ensures forall i :: 0 <= i < |ns| ==>
      && ns[i].kind == News && !ns[i].read && ns[i].symbol == symbol
      && ns[i].message == news[i].summary && ns[i].timestamp == news[i].datetime
      && ns[i].url == Some(news[i].url) && ns[i].source == Some(news[i].source)
      && |ns[i].title| <= DefaultTitleLength
      && (|news[i].headline| <= DefaultTitleLength ==> ns[i].title == news[i].headline)
      && (|news[i].headline| > DefaultTitleLength ==> ns[i].title == news[i].headline[..DefaultTitleLength - 3] + "...")
  {
    seq(|news|, i requires 0 <= i < |news| =>
      NotificationData(News, TruncateTitle(news[i].headline, DefaultTitleLength), news[i].summary,
        news[i].datetime, false, symbol, Some(news[i].url), Some(news[i].source)))
  }

  // ---------------------------------------------------------------------
  // areNewsDuplicates

  /** The number of message characters `areNewsDuplicates` compares. */
  const MessagePrefixLength := 200

  /** `areNewsDuplicates`: both are news, and they share a non-empty URL,
      or have similar titles, or non-empty messages whose first 200
      characters normalise alike. */
  function AreNewsDuplicates(n1: NotificationData, n2: NotificationData): (r: bool)
    ensures r ==> n1.kind == News && n2.kind == News
  {
    if n1.kind != News || n2.kind != News then false
    else if Truthy(n1.url) && Truthy(n2.url) && n1.url == n2.url then true
    else if AreTitlesSimilar(n1.title, n2.title) then true
    else if |n1.message| > 0 && |n2.message| > 0
      && NormalizeText(Take(n1.message, MessagePrefixLength)) == NormalizeText(Take(n2.message, MessagePrefixLength))
    then true
    else false
  }

  /** A news notification duplicates itself, and one whose title differs
      only in letter case. */
  lemma AreNewsDuplicatesReflexive(n: NotificationData)
    ensures AreNewsDuplicates(n, n) <==> n.kind == News
    ensures n.kind == News ==> AreNewsDuplicates(n.(title := ToUpper(n.title)), n)
  {
    AreTitlesSimilarReflexive(n.title);
  }

  // ---------------------------------------------------------------------
  // deduplicateNotifications

  /** The duplicate test `deduplicateNotifications` applies to an incoming
      notification against a kept one, chosen by the incoming type: news by
      content, price and watchlist alerts by type, symbol and title, the
      rest by type and title. */
  predicate Clashes(incoming: NotificationData, existing: NotificationData)
  {
    match incoming.kind
    case News => AreNewsDuplicates(incoming, existing)
    case PriceAlert | Watchlist =>
      existing.kind == incoming.kind && existing.symbol == incoming.symbol && existing.title == incoming.title
    case System => existing.kind == incoming.kind && existing.title == incoming.title
  }

  /** `findIndex`: the first kept notification the incoming one clashes
      with, or -1. */
  function FirstClash(unique: seq<NotificationData>, incoming: NotificationData): (idx: int)
    ensures -1 <= idx < |unique|
    ensures idx >= 0 ==> Clashes(incoming, unique[idx])
    ensures forall j :: 0 <= j < |unique| && (idx < 0 || j < idx) ==> !Clashes(incoming, unique[j])
    decreases |unique|
  {
    if |unique| == 0 then -1
    else if Clashes(incoming, unique[0]) then 0
    else
      var k := FirstClash(unique[1..], incoming);
      assert forall j :: 1 <= j < |unique| ==> unique[j] == unique[1..][j - 1];
      if k < 0 then -1 else k + 1
  }

  /** One round of the loop of `deduplicateNotifications`: keep a
      notification that clashes with nothing kept; let a news duplicate
      with a symbol replace, in place, the first clashing kept entry when
      that has none; otherwise drop it. */
  function DedupStep(unique: seq<NotificationData>, incoming: NotificationData): seq<NotificationData>
  {
    var idx := FirstClash(unique, incoming);
    if idx < 0 then unique + [incoming]
    else if incoming.kind == News && Truthy(incoming.symbol) && !Truthy(unique[idx].symbol) then unique[idx := incoming]
    else unique
  }

  /** What `deduplicateNotifications` returns for a list. */
  function Dedup(ns: seq<NotificationData>): seq<NotificationData>
  {
    if |ns| == 0 then [] else DedupStep(Dedup(ns[..|ns| - 1]), ns[|ns| - 1])
  }

  /** `deduplicateNotifications`, with its searches written as a loop over
      the kept notifications and its in-place replacement. */
  method DeduplicateNotifications(notifications: seq<NotificationData>) returns (unique: seq<NotificationData>)
    ensures unique == Dedup(notifications)
  {
    unique := [];
    for i := 0 to |notifications|
      invariant unique == Dedup(notifications[..i])
    {
      var notification := notifications[i];
      var k := 0;
      while k < |unique| && !Clashes(notification, unique[k])
        invariant 0 <= k <= |unique|
        invariant forall j :: 0 <= j < k ==> !Clashes(notification, unique[j])
      {
        k := k + 1;
      }
      FirstClashAt(unique, notification, k);
      DedupSnoc(notifications, i);
      var isDuplicate := k < |unique|;
      if isDuplicate {
        if notification.kind == News && Truthy(notification.symbol) && !Truthy(unique[k].symbol) {
          unique := unique[k := notification];
        }
      } else {
        unique := unique + [notification];
      }
    }
    assert notifications[..|notifications|] == notifications;
  }

  /** A search that stops at the first clash, or runs off the end, has
      found `FirstClash`. */
  lemma FirstClashAt(unique: seq<NotificationData>, incoming: NotificationData, k: nat)
    requires k <= |unique|
    requires forall j :: 0 <= j < k ==> !Clashes(incoming, unique[j])
    requires k < |unique| ==> Clashes(incoming, unique[k])
    ensures FirstClash(unique, incoming) == if k < |unique| then k else -1
  {
  }

  /** `Dedup` of one more notification is one more `DedupStep`. */
  lemma DedupSnoc(ns: seq<NotificationData>, i: nat)
    requires i < |ns|
    ensures Dedup(ns[..i + 1]) == DedupStep(Dedup(ns[..i]), ns[i])
  {
    assert ns[..i + 1][..i] == ns[..i];
  }

  /** De-duplication never lengthens the list and invents nothing. */
  lemma {:induction false} DedupBounds(ns: seq<NotificationData>)
    ensures |Dedup(ns)| <= |ns|
    ensures forall k :: 0 <= k < |Dedup(ns)| ==> Dedup(ns)[k] in ns
  {
    if |ns| > 0 {
      var prev := ns[..|ns| - 1];
      DedupBounds(prev);
      assert forall x :: x in prev ==> x in ns;
    }
  }

  /** Two kept non-news notifications that the alert and system rules treat
      as the same. */
  predicate SameNonNewsKey(a: NotificationData, b: NotificationData)
  {
    a.kind != News && a.kind == b.kind && a.title == b.title && (a.kind == System || a.symbol == b.symbol)
  }

  predicate NonNewsUnique(unique: seq<NotificationData>)
  {
    forall i, j :: 0 <= i < j < |unique| ==> !SameNonNewsKey(unique[i], unique[j])
  }

  lemma DedupStepKeepsNonNewsUnique(unique: seq<NotificationData>, incoming: NotificationData)
    requires NonNewsUnique(unique)
    ensures NonNewsUnique(DedupStep(unique, incoming))
  {
    var idx := FirstClash(unique, incoming);
    if idx < 0 {
      forall i | 0 <= i < |unique|
        ensures !SameNonNewsKey(unique[i], incoming)
      {
        assert !Clashes(incoming, unique[i]);
      }
    }
  }

  /** After de-duplication no two price or watchlist alerts share type,
      symbol and title, and no two system notifications share a title. */
  lemma {:induction false} DedupNonNewsUnique(ns: seq<NotificationData>)
    ensures NonNewsUnique(Dedup(ns))
  {
    if |ns| > 0 {
      DedupNonNewsUnique(ns[..|ns| - 1]);
      DedupStepKeepsNonNewsUnique(Dedup(ns[..|ns| - 1]), ns[|ns| - 1]);
    }
  }

  /** The input index of the notification that opened each kept slot. */
  ghost function Origins(ns: seq<NotificationData>): seq<nat>
  {
    if |ns| == 0 then []
    else if FirstClash(Dedup(ns[..|ns| - 1]), ns[|ns| - 1]) < 0 then Origins(ns[..|ns| - 1]) + [|ns| - 1]
    else Origins(ns[..|ns| - 1])
  }

  /** A kept slot opened by input `o` holds that input, or a later news
      item with a symbol that replaced it when it had none. */
  ghost predicate Slot(x: NotificationData, ns: seq<NotificationData>, o: nat)
    requires o < |ns|
  {
    || x == ns[o]
    || (&& ns[o].kind == News && !Truthy(ns[o].symbol)
        && x.kind == News && Truthy(x.symbol) && x in ns[o + 1..])
  }

  ghost predicate Traced(unique: seq<NotificationData>, origins: seq<nat>, ns: seq<NotificationData>)
  {
    && |origins| == |unique|
    && (forall k :: 0 <= k < |origins| ==> origins[k] < |ns|)
    && (forall k, l :: 0 <= k < l < |origins| ==> origins[k] < origins[l])
    && (forall k :: 0 <= k < |unique| ==> Slot(unique[k], ns, origins[k]))
  }

  lemma SlotSnoc(x: NotificationData, ns: seq<NotificationData>, o: nat, n: NotificationData)
    requires o < |ns| && Slot(x, ns, o)
    ensures Slot(x, ns + [n], o)
  {
    assert (ns + [n])[o] == ns[o];
    assert (ns + [n])[o + 1..] == ns[o + 1..] + [n];
  }

  lemma DedupStepTraced(unique: seq<NotificationData>, origins: seq<nat>, ns: seq<NotificationData>, n: NotificationData)
    requires Traced(unique, origins, ns)
    ensures Traced(DedupStep(unique, n),
      if FirstClash(unique, n) < 0 then origins + [|ns|] else origins, ns + [n])
  {
    TracedSnoc(unique, origins, ns, n);
    var idx := FirstClash(unique, n);
    if idx < 0 {
      TracedAppend(unique, origins, ns, n);
    } else if n.kind == News && Truthy(n.symbol) && !Truthy(unique[idx].symbol) {
      ReplacementSlot(unique[idx], ns, origins[idx], n);
      TracedReplace(unique, origins, ns + [n], idx, n);
    }
  }

  lemma TracedSnoc(unique: seq<NotificationData>, origins: seq<nat>, ns: seq<NotificationData>, n: NotificationData)
    requires Traced(unique, origins, ns)
    ensures Traced(unique, origins, ns + [n])
  {
    forall k | 0 <= k < |unique|
      ensures Slot(unique[k], ns + [n], origins[k])
    {
      SlotSnoc(unique[k], ns, origins[k], n);
    }
  }

  lemma TracedAppend(unique: seq<NotificationData>, origins: seq<nat>, ns: seq<NotificationData>, n: NotificationData)
    requires Traced(unique, origins, ns) && Traced(unique, origins, ns + [n])
    ensures Traced(unique + [n], origins + [|ns|], ns + [n])
  {
    assert (ns + [n])[|ns|] == n;
  }

  lemma TracedReplace(unique: seq<NotificationData>, origins: seq<nat>, ns: seq<NotificationData>, idx: nat, n: NotificationData)
    requires Traced(unique, origins, ns) && idx < |unique|
    requires Slot(n, ns, origins[idx])
    ensures Traced(unique[idx := n], origins, ns)
  {
  }

  /** A news item with a symbol that replaces a symbol-less opener fills
      that opener's slot. */
  lemma ReplacementSlot(x: NotificationData, ns: seq<NotificationData>, o: nat, n: NotificationData)
    requires o < |ns| && Slot(x, ns, o) && !Truthy(x.symbol) && x.kind == News
    requires n.kind == News && Truthy(n.symbol)
    ensures Slot(n, ns + [n], o)
  {
    var ns' := ns + [n];
    assert x == ns[o] == ns'[o];
    assert ns'[o + 1..][|ns'| - o - 2] == n;
  }

  /** `deduplicateNotifications` keeps input order: every kept slot was
      opened by an input, slots appear in the order they were opened, and a
      slot holds its opener unless a later news item with a symbol took the
      place of an opener without one. */
  lemma {:induction false} DedupOrder(ns: seq<NotificationData>)
    ensures Traced(Dedup(ns), Origins(ns), ns)
  {
    if |ns| > 0 {
      var prev := ns[..|ns| - 1];
      DedupOrder(prev);
      assert prev + [ns[|ns| - 1]] == ns;
      DedupStepTraced(Dedup(prev), Origins(prev), prev, ns[|ns| - 1]);
    }
  }

  /** A list in which nothing clashes with an earlier item comes through
      unchanged. */
  lemma {:induction false} DedupWithoutClashes(ns: seq<NotificationData>)
    requires forall i, j :: 0 <= i < j < |ns| ==> !Clashes(ns[j], ns[i])
    ensures Dedup(ns) == ns
  {
    if |ns| > 0 {
      var prev := ns[..|ns| - 1];
      DedupWithoutClashes(prev);
      assert forall i :: 0 <= i < |prev| ==> !Clashes(ns[|ns| - 1], prev[i]);
    }
  }

  // ---------------------------------------------------------------------
  // checkPriceAlerts

  /** How many watchlist entries `checkPriceAlerts` looks at. */
  const AlertedStocks := 3

  function Abs(x: real): real
  {
    if x < 0.0 then -x else x
  }

  /** The alert rules of `checkPriceAlerts`: a move of more than 3%, volume
      above one and a half times the average, and nearness to the 52-week
      high or, failing that, the 52-week low. */
  datatype AlertRule = Move | HighVolume | NearHigh | NearLow

  /** What a rule's alert title adds to the symbol; a move is a surge when
      the change is positive and a drop otherwise. */
  function RuleSuffix(rule: AlertRule, q: StockQuote): string
  {
    match rule
    case Move => if q.changePercent > 0.0 then " Price Surge" else " Price Drop"
    case HighVolume => " High Volume Alert"
    case NearHigh => " Near 52-Week High"
    case NearLow => " Near 52-Week Low"
  }

  function RuleTitle(symbol: string, rule: AlertRule, q: StockQuote): string
  {
    symbol + RuleSuffix(rule, q)
  }

  /** The alert a rule produces; the volume alert is a watchlist
      notification, the others price alerts. The message text is not part of
      this model. */
  function RuleAlert(item: SymbolName, q: StockQuote, rule: AlertRule, now: int): NotificationData
  {
    NotificationData(if rule == HighVolume then Watchlist else PriceAlert,
      RuleTitle(item.symbol, rule, q), "", now, false, Some(item.symbol), None, None)
  }

  /** The alert of a move of more than 3%, if any. */
  function MoveAlert(item: SymbolName, q: StockQuote, now: int): seq<NotificationData>
  {
    if Abs(q.changePercent) > 3.0 then [RuleAlert(item, q, Move, now)] else []
  }

  /** The alert of volume above one and a half times the average, if any. */
  function VolumeAlert(item: SymbolName, q: StockQuote, now: int): seq<NotificationData>
  {
    if q.volume > q.avgVolume * 1.5 then [RuleAlert(item, q, HighVolume, now)] else []
  }

  /** The alert of a price within 2% of the 52-week high or, failing that,
      the 52-week low, if any. */
  function ExtremeAlert(item: SymbolName, q: StockQuote, now: int): seq<NotificationData>
  {
    if q.price >= q.high52Week * 0.98 then [RuleAlert(item, q, NearHigh, now)]
    else if q.price <= q.low52Week * 1.02 then [RuleAlert(item, q, NearLow, now)]
    else []
  }

  /** The alerts of one watchlist entry: at most three, all unread, stamped
      `now` and tagged with the entry's symbol. */
  function AlertsFor(item: SymbolName, q: StockQuote, now: int): (alerts: seq<NotificationData>)
    ensures |alerts| <= 3
    ensures forall k :: 0 <= k < |alerts| ==>
      alerts[k].symbol == Some(item.symbol) && alerts[k].timestamp == now && !alerts[k].read
  {
    MoveAlert(item, q, now) + VolumeAlert(item, q, now) + ExtremeAlert(item, q, now)
  }

  function TitlesOf(ns: seq<NotificationData>): (titles: seq<string>)
    ensures |titles| == |ns| && forall i :: 0 <= i < |ns| ==> titles[i] == ns[i].title
  {
    seq(|ns|, i requires 0 <= i < |ns| => ns[i].title)
  }

  lemma TitlesOfAlerts(item: SymbolName, q: StockQuote, now: int)
    ensures forall t :: t in TitlesOf(AlertsFor(item, q, now)) <==>
        t in TitlesOf(MoveAlert(item, q, now)) || t in TitlesOf(VolumeAlert(item, q, now)) || t in TitlesOf(ExtremeAlert(item, q, now))
  {
    var m, v, e := MoveAlert(item, q, now), VolumeAlert(item, q, now), ExtremeAlert(item, q, now);
    assert TitlesOf(m + v + e) == TitlesOf(m) + TitlesOf(v) + TitlesOf(e);
  }

  lemma AppendCancel(p: string, u: string, v: string)
    ensures p + u == p + v ==> u == v
  {
    if p + u == p + v {
      PrefixCancel(p, u, v);
    }
  }

  lemma RuleSuffixInjective(r1: AlertRule, r2: AlertRule, q: StockQuote)
    requires r1 != r2
    ensures RuleSuffix(r1, q) != RuleSuffix(r2, q)
  {
    assert RuleSuffix(r1, q)[1] != RuleSuffix(r2, q)[1] || RuleSuffix(r1, q)[14] != RuleSuffix(r2, q)[14]
      || |RuleSuffix(r1, q)| != |RuleSuffix(r2, q)|;
  }

  /** Different rules give one symbol different alert titles. */
  lemma RuleTitleInjective(symbol: string, r1: AlertRule, r2: AlertRule, q: StockQuote)
    requires r1 != r2
    ensures RuleTitle(symbol, r1, q) != RuleTitle(symbol, r2, q)
  {
    RuleSuffixInjective(r1, r2, q);
    AppendCancel(symbol, RuleSuffix(r1, q), RuleSuffix(r2, q));
  }

  /** A move alert is raised exactly when the price moved more than 3%. */
  lemma MoveRuleFires(item: SymbolName, q: StockQuote, now: int)
    ensures Abs(q.changePercent) > 3.0 <==> RuleTitle(item.symbol, Move, q) in TitlesOf(AlertsFor(item, q, now))
  {
    var title := RuleTitle(item.symbol, Move, q);
    TitlesOfAlerts(item, q, now);
    RuleTitleInjective(item.symbol, Move, HighVolume, q);
    RuleTitleInjective(item.symbol, Move, NearHigh, q);
    RuleTitleInjective(item.symbol, Move, NearLow, q);
    assert TitlesOf(MoveAlert(item, q, now)) == if Abs(q.changePercent) > 3.0 then [title] else [];
    assert title !in TitlesOf(VolumeAlert(item, q, now));
    assert title !in TitlesOf(ExtremeAlert(item, q, now));
  }

  /** A volume alert is raised exactly when volume exceeds one and a half
      times the average. */
  lemma VolumeRuleFires(item: SymbolName, q: StockQuote, now: int)
    ensures q.volume > q.avgVolume * 1.5 <==> RuleTitle(item.symbol, HighVolume, q) in TitlesOf(AlertsFor(item, q, now))
  {
    var title := RuleTitle(item.symbol, HighVolume, q);
    TitlesOfAlerts(item, q, now);
    RuleTitleInjective(item.symbol, HighVolume, Move, q);
    RuleTitleInjective(item.symbol, HighVolume, NearHigh, q);
    RuleTitleInjective(item.symbol, HighVolume, NearLow, q);
    assert TitlesOf(VolumeAlert(item, q, now)) == if q.volume > q.avgVolume * 1.5 then [title] else [];
    assert title !in TitlesOf(MoveAlert(item, q, now));
    assert title !in TitlesOf(ExtremeAlert(item, q, now));
  }

  /** A near-high alert is raised exactly when the price is at least 98% of
      the 52-week high. */
  lemma NearHighRuleFires(item: SymbolName, q: StockQuote, now: int)
    ensures q.price >= q.high52Week * 0.98 <==> RuleTitle(item.symbol, NearHigh, q) in TitlesOf(AlertsFor(item, q, now))
  {
    var title := RuleTitle(item.symbol, NearHigh, q);
    TitlesOfAlerts(item, q, now);
    RuleTitleInjective(item.symbol, NearHigh, Move, q);
    RuleTitleInjective(item.symbol, NearHigh, HighVolume, q);
    RuleTitleInjective(item.symbol, NearHigh, NearLow, q);
    assert TitlesOf(ExtremeAlert(item, q, now)) ==
      if q.price >= q.high52Week * 0.98 then [RuleTitle(item.symbol, NearHigh, q)]
      else if q.price <= q.low52Week * 1.02 then [RuleTitle(item.symbol, NearLow, q)]
      else [];
    assert title !in TitlesOf(MoveAlert(item, q, now));
    assert title !in TitlesOf(VolumeAlert(item, q, now));
  }

  /** A near-low alert is raised exactly when the price is below 98% of the
      52-week high and at most 102% of the 52-week low. */
  lemma NearLowRuleFires(item: SymbolName, q: StockQuote, now: int)
    ensures q.price < q.high52Week * 0.98 && q.price <= q.low52Week * 1.02
      <==> RuleTitle(item.symbol, NearLow, q) in TitlesOf(AlertsFor(item, q, now))
  {
    var title := RuleTitle(item.symbol, NearLow, q);
    TitlesOfAlerts(item, q, now);
    RuleTitleInjective(item.symbol, NearLow, Move, q);
    RuleTitleInjective(item.symbol, NearLow, HighVolume, q);
    RuleTitleInjective(item.symbol, NearLow, NearHigh, q);
    assert TitlesOf(ExtremeAlert(item, q, now)) ==
      if q.price >= q.high52Week * 0.98 then [RuleTitle(item.symbol, NearHigh, q)]
      else if q.price <= q.low52Week * 1.02 then [RuleTitle(item.symbol, NearLow, q)]
      else [];
    assert title !in TitlesOf(MoveAlert(item, q, now));
    assert title !in TitlesOf(VolumeAlert(item, q, now));
  }

  lemma AppendAssociative(a: seq<NotificationData>, b: seq<NotificationData>, c: seq<NotificationData>, d: seq<NotificationData>)
    ensures a + b + c + d == a + (b + c + d)
  {
  }

  /** The alerts for a list of watchlist entries, entry by entry. */
  function PriceAlerts(items: seq<SymbolName>, quoteOf: string -> StockQuote, now: int): seq<NotificationData>
  {
    if |items| == 0 then []
    else
      var last := items[|items| - 1];
      PriceAlerts(items[..|items| - 1], quoteOf, now) + AlertsFor(last, quoteOf(last.symbol), now)
  }

  function SymbolsOf(items: seq<SymbolName>): (symbols: seq<string>)
    ensures |symbols| == |items| && forall i :: 0 <= i < |items| ==> symbols[i] == items[i].symbol
  {
    seq(|items|, i requires 0 <= i < |items| => items[i].symbol)
  }

  /** At most three alerts per entry, each tagged with an entry's symbol. */
  lemma {:induction false} PriceAlertsBounds(items: seq<SymbolName>, quoteOf: string -> StockQuote, now: int)
    ensures var alerts := PriceAlerts(items, quoteOf, now);
      && |alerts| <= 3 * |items|
      && forall k :: 0 <= k < |alerts| ==> alerts[k].symbol.Some? && alerts[k].symbol.value in SymbolsOf(items)
  {
    if |items| > 0 {
      var prev := items[..|items| - 1];
      var last := items[|items| - 1];
      PriceAlertsBounds(prev, quoteOf, now);
      SymbolsOfSnoc(items);
      TaggedAppend(PriceAlerts(prev, quoteOf, now), AlertsFor(last, quoteOf(last.symbol), now), SymbolsOf(prev), last.symbol);
    }
  }

  lemma SymbolsOfSnoc(items: seq<SymbolName>)
    requires |items| > 0
    ensures SymbolsOf(items) == SymbolsOf(items[..|items| - 1]) + [items[|items| - 1].symbol]
  {
  }

  /** Alerts tagged with known symbols, followed by alerts tagged with one
      more symbol, are tagged with the extended list. */
  lemma TaggedAppend(head: seq<NotificationData>, tail: seq<NotificationData>, symbols: seq<string>, symbol: string)
    requires forall k :: 0 <= k < |head| ==> head[k].symbol.Some? && head[k].symbol.value in symbols
    requires forall k :: 0 <= k < |tail| ==> tail[k].symbol == Some(symbol)
    ensures forall k :: 0 <= k < |head + tail| ==>
      (head + tail)[k].symbol.Some? && (head + tail)[k].symbol.value in symbols + [symbol]
  {
    forall k | 0 <= k < |head + tail|
      ensures (head + tail)[k].symbol.Some? && (head + tail)[k].symbol.value in symbols + [symbol]
    {
      if k < |head| {
        assert (head + tail)[k] == head[k];
      } else {
        assert (head + tail)[k] == tail[k - |head|];
      }
    }
  }

  /** `checkPriceAlerts`: the alerts of the first three watchlist entries,
      with `quoteOf` standing for the quote fetch. */
  method CheckPriceAlerts(watchlist: seq<SymbolName>, quoteOf: string -> StockQuote, now: int)
    returns (notifications: seq<NotificationData>)
    ensures notifications == PriceAlerts(Take(watchlist, AlertedStocks), quoteOf, now)
    ensures |notifications| <= 3 * AlertedStocks
  {
    var checked := Take(watchlist, AlertedStocks);
    notifications := [];
    for i := 0 to |checked|
      invariant notifications == PriceAlerts(checked[..i], quoteOf, now)
    {
      var item := checked[i];
      PriceAlertsSnoc(checked, i, quoteOf, now);
      notifications := PushAlerts(notifications, item, quoteOf(item.symbol), now);
    }
    assert checked[..|checked|] == checked;
    PriceAlertsBounds(checked, quoteOf, now);
  }

  /** The alerts of one more entry are those of the entries before it and
      its own. */
  lemma PriceAlertsSnoc(items: seq<SymbolName>, i: nat, quoteOf: string -> StockQuote, now: int)
    requires i < |items|
    ensures PriceAlerts(items[..i + 1], quoteOf, now) == PriceAlerts(items[..i], quoteOf, now) + AlertsFor(items[i], quoteOf(items[i].symbol), now)
  {
    assert items[..i + 1][..i] == items[..i];
  }

  /** The body of the watchlist loop of `checkPriceAlerts`: push the alert
      of every rule that fires for one entry. */
  method PushAlerts(notifications: seq<NotificationData>, item: SymbolName, quote: StockQuote, now: int)
    returns (pushed: seq<NotificationData>)
    ensures pushed == notifications + AlertsFor(item, quote, now)
  {
    pushed := notifications;
    if Abs(quote.changePercent) > 3.0 {
      pushed := pushed + [RuleAlert(item, quote, Move, now)];
    }
    assert pushed == notifications + MoveAlert(item, quote, now);
    if quote.volume > quote.avgVolume * 1.5 {
      pushed := pushed + [RuleAlert(item, quote, HighVolume, now)];
    }
    assert pushed == notifications + MoveAlert(item, quote, now) + VolumeAlert(item, quote, now);
    if quote.price >= quote.high52Week * 0.98 {
      pushed := pushed + [RuleAlert(item, quote, NearHigh, now)];
    } else if quote.price <= quote.low52Week * 1.02 {
      pushed := pushed + [RuleAlert(item, quote, NearLow, now)];
    }
    assert pushed == notifications + MoveAlert(item, quote, now) + VolumeAlert(item, quote, now) + ExtremeAlert(item, quote, now);
    AppendAssociative(notifications, MoveAlert(item, quote, now), VolumeAlert(item, quote, now), ExtremeAlert(item, quote, now));
  }

  // ---------------------------------------------------------------------
  // fetchMarketNews and fetchStockNews

  /** How many symbols `fetchStockNews` fetches news for, and how many
      items it keeps per symbol. */
  const NewsStocks := 5
  const NewsPerStock := 2

  /** `fetchMarketNews`: the general news, without a symbol. */
  function FetchMarketNews(news: seq<StockNews>): (ns: seq<NotificationData>)
    ensures |ns| == |news|
    ensures forall k :: 0 <= k < |ns| ==> ns[k].kind == News && ns[k].symbol == None
  {
    if |news| == 0 then [] else ConvertNewsToNotifications(news, None)
  }

  /** The notifications of the top news of each symbol, symbol by symbol. */
  function StockNewsFor(symbols: seq<string>, newsOf: Option<string> -> seq<StockNews>): seq<NotificationData>
  {
    if |symbols| == 0 then []
    else
      var symbol := symbols[|symbols| - 1];
      var news := newsOf(Some(symbol));
      StockNewsFor(symbols[..|symbols| - 1], newsOf)
        + (if |news| > 0 then ConvertNewsToNotifications(Take(news, NewsPerStock), Some(symbol)) else [])
  }

  /** At most two news notifications per symbol, each tagged with its
      symbol. */
  lemma {:induction false} StockNewsBounds(symbols: seq<string>, newsOf: Option<string> -> seq<StockNews>)
    ensures var ns := StockNewsFor(symbols, newsOf);
      && |ns| <= NewsPerStock * |symbols|
      && forall k :: 0 <= k < |ns| ==> ns[k].kind == News && ns[k].symbol.Some? && ns[k].symbol.value in symbols
  {
    if |symbols| > 0 {
      var prev := symbols[..|symbols| - 1];
      StockNewsBounds(prev, newsOf);
      assert forall x :: x in prev ==> x in symbols;
    }
  }

  /** `fetchStockNews`: the top two news items of each of the first five
      symbols, with `newsOf` standing for the news fetch. */
  method FetchStockNews(symbols: seq<string>, newsOf: Option<string> -> seq<StockNews>)
    returns (allNotifications: seq<NotificationData>)
    ensures allNotifications == StockNewsFor(Take(symbols, NewsStocks), newsOf)
    ensures |allNotifications| <= NewsPerStock * NewsStocks
  {
    var fetched := Take(symbols, NewsStocks);
    allNotifications := [];
    for i := 0 to |fetched|
      invariant allNotifications == StockNewsFor(fetched[..i], newsOf)
    {
      var symbol := fetched[i];
      var news := newsOf(Some(symbol));
      if |news| > 0 {
        allNotifications := allNotifications + ConvertNewsToNotifications(Take(news, NewsPerStock), Some(symbol));
      }
      assert fetched[..i + 1][..i] == fetched[..i];
    }
    assert fetched[..|fetched|] == fetched;
    StockNewsBounds(fetched, newsOf);
  }

  // ---------------------------------------------------------------------
  // The newest-first sort of fetchAllNotifications

  predicate SortedNewestFirst(ns: seq<NotificationData>)
  {
    forall i, j :: 0 <= i < j < |ns| ==> ns[i].timestamp >= ns[j].timestamp
  }

  /** Inserts a notification before the first one that is not newer, so
      that among equal timestamps the inserted one comes first. */
  function InsertNewestFirst(n: NotificationData, sorted: seq<NotificationData>): (r: seq<NotificationData>)
    ensures multiset(r) == multiset(sorted) + multiset{n}
  {
    if |sorted| == 0 || sorted[0].timestamp <= n.timestamp then [n] + sorted
    else
      assert sorted == [sorted[0]] + sorted[1..];
      [sorted[0]] + InsertNewestFirst(n, sorted[1..])
  }

  /** Inserting into a newest-first list keeps it newest first. */
  lemma {:induction false} InsertKeepsSorted(n: NotificationData, sorted: seq<NotificationData>)
    requires SortedNewestFirst(sorted)
    ensures SortedNewestFirst(InsertNewestFirst(n, sorted))
  {
    if |sorted| > 0 && sorted[0].timestamp > n.timestamp {
      var rest := InsertNewestFirst(n, sorted[1..]);
      assert SortedNewestFirst(sorted[1..]);
      InsertKeepsSorted(n, sorted[1..]);
      forall k | 0 <= k < |rest|
        ensures sorted[0].timestamp >= rest[k].timestamp
      {
        assert rest[k] in multiset(rest);
        assert rest[k] == n || rest[k] in sorted[1..];
      }
      assert InsertNewestFirst(n, sorted) == [sorted[0]] + rest;
    }
  }

  /** `sort((a, b) => b.timestamp - a.timestamp)`: newest first, by
      insertion. */
  function SortNewestFirst(ns: seq<NotificationData>): (r: seq<NotificationData>)
    ensures SortedNewestFirst(r)
    ensures multiset(r) == multiset(ns)
  {
    if |ns| == 0 then []
    else
      assert ns == [ns[0]] + ns[1..];
      InsertKeepsSorted(ns[0], SortNewestFirst(ns[1..]));
      InsertNewestFirst(ns[0], SortNewestFirst(ns[1..]))
  }

  // ---------------------------------------------------------------------
  // fetchAllNotifications

  /** The symbols whose news is fetched when the watchlist is empty. */
  const DefaultStocks: seq<string> := ["AAPL", "MSFT", "GOOGL", "TSLA", "NVDA"]

  /** What `fetchAllNotifications` combines before de-duplication: price
      alerts (none for an empty watchlist), then stock news, then market
      news. */
  function CombinedNotifications(watchlist: seq<SymbolName>, quoteOf: string -> StockQuote,
                                 newsOf: Option<string> -> seq<StockNews>, now: int): seq<NotificationData>
  {
    var stockSymbols := if |watchlist| > 0 then SymbolsOf(watchlist) else DefaultStocks;
    var priceAlerts := if |watchlist| > 0 then PriceAlerts(Take(watchlist, AlertedStocks), quoteOf, now) else [];
    priceAlerts + StockNewsFor(Take(stockSymbols, NewsStocks), newsOf) + FetchMarketNews(newsOf(None))
  }

  /** `fetchAllNotifications`: the combined notifications, de-duplicated
      and sorted newest first. */
  method FetchAllNotifications(watchlist: seq<SymbolName>, quoteOf: string -> StockQuote,
                               newsOf: Option<string> -> seq<StockNews>, now: int)
    returns (result: seq<NotificationData>)
    ensures result == SortNewestFirst(Dedup(CombinedNotifications(watchlist, quoteOf, newsOf, now)))
    ensures SortedNewestFirst(result)
    ensures |result| <= 3 * AlertedStocks + NewsPerStock * NewsStocks + |newsOf(None)|
    ensures forall k :: 0 <= k < |result| ==> result[k] in CombinedNotifications(watchlist, quoteOf, newsOf, now)
  {
    var stockSymbols := if |watchlist| > 0 then SymbolsOf(watchlist) else DefaultStocks;
    var marketNews := FetchMarketNews(newsOf(None));
    var stockNews := FetchStockNews(stockSymbols, newsOf);
    var priceAlerts := [];
    if |watchlist| > 0 {
      priceAlerts := CheckPriceAlerts(watchlist, quoteOf, now);
    }
    var allNotifications := priceAlerts + stockNews + marketNews;
    assert allNotifications == CombinedNotifications(watchlist, quoteOf, newsOf, now);
    var uniqueNotifications := DeduplicateNotifications(allNotifications);
    DedupBounds(allNotifications);
    result := SortNewestFirst(uniqueNotifications);
    forall k | 0 <= k < |result|
      ensures result[k] in allNotifications
    {
      assert result[k] in multiset(uniqueNotifications);
    }
  }
}
