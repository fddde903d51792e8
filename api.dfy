/**
  The text-building parts of the alert routes (app/api.py): the count and message of
  `/alerts/latest`, and the transfer list that `/alerts/summary` and `/alerts/chat`
  write into the language-model prompt. The routes take the transfer list as an
  input; the language model is a function from the prompt's inputs to its reply.
*/
module Api {
  import opened Wrappers
  import opened Numerals
  import opened Schemas

  const NoTransfersFoundMessage: string := "No whale transfers found (or provider returned nothing)."
  const NothingToAnalyzeMessage: string :=
    "No recent large ETH transfers were found, so there is nothing to analyze right now."
  const NoDataToAnswerMessage: string :=
    "Right now I don't see any large ETH transfers, so there isn't enough data to answer that question."

  const ShowingPrefix: string := "Showing up to "

  function Min(a: int, b: int): int {
    if a < b then a else b
  }

  /** `/alerts/latest` once the transfers are in hand: the list, its length, and a message. */
  function LatestAlerts(transfers: seq<WhaleTransfer>): (r: WhaleTransferList)
    ensures r.transfers == transfers && r.count == |transfers|
    ensures transfers == [] ==> r.summary == Some(NoTransfersFoundMessage)
    ensures transfers != [] ==> r.summary.Some?
    ensures transfers != [] ==>
      var count, message := Decimal(|transfers|), r.summary.value;
      && |message| >= |ShowingPrefix| + |count|
      && message[..|ShowingPrefix|] == ShowingPrefix
      && message[|ShowingPrefix|..|ShowingPrefix| + |count|] == count
  {
    if transfers == [] then
      WhaleTransferList([], 0, Some(NoTransfersFoundMessage))
    else
      var count := Decimal(|transfers|);
      var message := ShowingPrefix + count
                     + " large ETH transfers (currently filtering by amount >= 100 ETH).";
      assert message[..|ShowingPrefix|] == ShowingPrefix;
      assert message[|ShowingPrefix|..|ShowingPrefix| + |count|] == count;
      WhaleTransferList(transfers, |transfers|, Some(message))
  }

  /** Python's `s[:k]`: the first `k` characters, or all of `s` when it is shorter. */
  function SliceHead(s: string, k: nat): string {
    if k <= |s| then s[..k] else s
  }

  /** Python's `s[-k:]` for `k > 0`: the last `k` characters, or all of `s` when it is shorter. */
  function SliceTail(s: string, k: nat): string {
    if k <= |s| then s[|s| - k..] else s
  }

  /** `s[:6] + "..." + s[-4:]`, the summary route's shortening of an address. */
  function ShortenAddress(s: string): string {
    SliceHead(s, 6) + "..." + SliceTail(s, 4)
  }

  /**
    A shortened address of 10 or more characters is 13 long: the first 6, `...`, the
    last 4. Shorter ones keep overlapping pieces, down to `s...s` for 4 or fewer.
    Shortening adds no line break.
  */
  lemma ShortenAddressShape(s: string)
    ensures var r := ShortenAddress(s);
      && |r| == Min(|s|, 6) + 3 + Min(|s|, 4)
      && (|s| >= 10 ==> |r| == 13 && r[..6] == s[..6] && r[6..9] == "..." && r[9..] == s[|s| - 4..])
      && (|s| <= 4 ==> r == s + "..." + s)
      && ('\n' !in s ==> '\n' !in r)
  {
    var head, tail := SliceHead(s, 6), SliceTail(s, 4);
    assert forall c :: c in head ==> c in s;
    assert forall c :: c in tail ==> c in s;
  }

  /** The chat route's shortening: an empty address stays empty instead of becoming `...`. */
  function ShortenAddressOrEmpty(s: string): string {
    if s != "" then ShortenAddress(s) else ""
  }

  /** The two shortenings agree on every address except the empty one. */
  lemma ShorteningsDifferOnlyOnEmpty(s: string)
    ensures ShortenAddressOrEmpty(s) == ShortenAddress(s) <==> s != ""
    ensures ShortenAddressOrEmpty("") == "" && ShortenAddress("") == "..."
  {
    ShortenAddressShape("");
  }

  lemma ShortenAddressOrEmptyKeepsOneLine(s: string)
    ensures '\n' !in s ==> '\n' !in ShortenAddressOrEmpty(s)
  {
    ShortenAddressShape(s);
  }

  /** `str()` of an optional block number, as an f-string prints it. */
  function BlockText(block: Option<int>): string {
    match block
    case None => "None"
    case Some(n) => Decimal(n)
  }

  /** `- {amount} {symbol} from {from} to {to} (block {block})`; `show` prints the float amount. */
  function Line(t: WhaleTransfer, fromShort: string, toShort: string, show: real -> string): string {
    "- " + show(t.amount) + " " + t.tokenSymbol + " from " + fromShort + " to " + toShort
    + " (block " + BlockText(t.blockNumber) + ")"
  }

  function SummaryLine(t: WhaleTransfer, show: real -> string): string {
    Line(t, ShortenAddress(t.fromAddress), ShortenAddress(t.toAddress), show)
  }

  function ChatLine(t: WhaleTransfer, show: real -> string): string {
    Line(t, ShortenAddressOrEmpty(t.fromAddress), ShortenAddressOrEmpty(t.toAddress), show)
  }

  /** Nothing a transfer contributes to its line contains a line break. */
  predicate PrintsOnOneLine(t: WhaleTransfer, show: real -> string) {
    '\n' !in show(t.amount) && '\n' !in t.tokenSymbol && '\n' !in t.fromAddress && '\n' !in t.toAddress
  }

  /** A line starts with `- `, ends with `)`, and holds no line break when its parts hold none. */
  lemma LineShape(t: WhaleTransfer, fromShort: string, toShort: string, show: real -> string)
    ensures var l := Line(t, fromShort, toShort, show);
      && |l| > 2 && l[..2] == "- " && l[|l| - 1] == ')'
      && ('\n' !in show(t.amount) && '\n' !in t.tokenSymbol && '\n' !in fromShort && '\n' !in toShort
          ==> '\n' !in l)
  {
    var b := BlockText(t.blockNumber);
    if t.blockNumber.Some? {
      DecimalShape(t.blockNumber.value);
      assert forall i :: 0 <= i < |b| ==> b[i] != '\n';
    }
    assert '\n' !in b;
  }

  /** `"\n".join(lines)`. */
  function JoinLines(lines: seq<string>): string {
    if |lines| == 0 then ""
    else if |lines| == 1 then lines[0]
    else lines[0] + "\n" + JoinLines(lines[1..])
  }

  /** `s.split("\n")`: the pieces between line breaks, always at least one. */
  function SplitLines(s: string): (r: seq<string>)
    ensures |r| >= 1
  {
    if s == "" then [""]
    else if s[0] == '\n' then [""] + SplitLines(s[1..])
    else
      var rest := SplitLines(s[1..]);
      [[s[0]] + rest[0]] + rest[1..]
  }

  lemma {:induction false} SplitSingleLine(a: string)
    requires '\n' !in a
    ensures SplitLines(a) == [a]
  {
    if a != "" {
      SplitSingleLine(a[1..]);
      assert [a[0]] + a[1..] == a;
    }
  }

  lemma {:induction false} SplitAfterLine(a: string, rest: string)
    requires '\n' !in a
    ensures SplitLines(a + "\n" + rest) == [a] + SplitLines(rest)
  {
    if a == "" {
      assert a + "\n" + rest == "\n" + rest;
      assert ("\n" + rest)[1..] == rest;
    } else {
      SplitAfterLine(a[1..], rest);
      assert (a + "\n" + rest)[1..] == a[1..] + "\n" + rest;
      assert [a[0]] + a[1..] == a;
    }
  }

  /**
    Splitting the joined text at its line breaks gives back exactly the lines, so the
    text has a break between consecutive lines and nowhere else (none trailing).
  */
  lemma {:induction false} JoinSplitRoundTrip(lines: seq<string>)
    requires |lines| >= 1
    requires forall i :: 0 <= i < |lines| ==> '\n' !in lines[i]
    ensures SplitLines(JoinLines(lines)) == lines
    decreases |lines|
  {
    if |lines| == 1 {
      SplitSingleLine(lines[0]);
    } else {
      JoinSplitRoundTrip(lines[1..]);
      SplitAfterLine(lines[0], JoinLines(lines[1..]));
      assert [lines[0]] + lines[1..] == lines;
    }
  }

  /** One line joins to itself; otherwise the text ends with the last line, not with a break. */
  lemma {:induction false} JoinEndsWithLastLine(lines: seq<string>)
    requires |lines| >= 1
    ensures |lines| == 1 ==> JoinLines(lines) == lines[0]
    ensures var text, last := JoinLines(lines), lines[|lines| - 1];
      |last| <= |text| && text[|text| - |last|..] == last
    decreases |lines|
  {
    if |lines| > 1 {
      JoinEndsWithLastLine(lines[1..]);
      var rest := JoinLines(lines[1..]);
      var text := lines[0] + "\n" + rest;
      assert text[|text| - |rest|..] == rest;
    }
  }

  function SummaryLines(transfers: seq<WhaleTransfer>, show: real -> string): (lines: seq<string>)
    ensures |lines| == |transfers|
  {
    seq(|transfers|, i requires 0 <= i < |transfers| => SummaryLine(transfers[i], show))
  }

  function ChatLines(transfers: seq<WhaleTransfer>, show: real -> string): (lines: seq<string>)
    ensures |lines| == |transfers|
  {
    seq(|transfers|, i requires 0 <= i < |transfers| => ChatLine(transfers[i], show))
  }

  /**
    `/alerts/summary`: no transfers means the fixed message, a count of 0 and no call
    to the model; otherwise the model (`llm`) is given one line per transfer, in order.
    `prompt` is the transfer text handed to the model.
  */
  method SummarizeAlerts(transfers: seq<WhaleTransfer>, show: real -> string, llm: string -> string)
    returns (response: AlertsSummary, prompt: Option<string>)
    ensures transfers == [] ==> response == AlertsSummary(NothingToAnalyzeMessage, 0) && prompt == None
    ensures transfers != [] ==>
      && prompt == Some(JoinLines(SummaryLines(transfers, show)))
      && response == AlertsSummary(llm(prompt.value), |transfers|)
  {
    if transfers == [] {
      return AlertsSummary(NothingToAnalyzeMessage, 0), None;
    }
    var lines: seq<string> := [];
    for i := 0 to |transfers|
      invariant |lines| == i
      invariant forall k :: 0 <= k < i ==> lines[k] == SummaryLine(transfers[k], show)
    {
      var t := transfers[i];
      var fromShort := ShortenAddress(t.fromAddress);
      var toShort := ShortenAddress(t.toAddress);
      lines := lines + [Line(t, fromShort, toShort, show)];
    }
    assert lines == SummaryLines(transfers, show);
    var transfersText := JoinLines(lines);
    return AlertsSummary(llm(transfersText), |transfers|), Some(transfersText);
  }

  /**
    `/alerts/chat`: as the summary route, with the chat shortening, and the user's
    `question` handed to the model beside the transfer text.
  */
  method ChatAboutAlerts(transfers: seq<WhaleTransfer>, question: string, show: real -> string,
                         llm: (string, string) -> string)
    returns (response: ChatResponse, prompt: Option<string>)
    ensures transfers == [] ==> response == ChatResponse(NoDataToAnswerMessage, 0) && prompt == None
    ensures transfers != [] ==>
      && prompt == Some(JoinLines(ChatLines(transfers, show)))
      && response == ChatResponse(llm(prompt.value, question), |transfers|)
  {
    if transfers == [] {
      return ChatResponse(NoDataToAnswerMessage, 0), None;
    }
    var lines: seq<string> := [];
    for i := 0 to |transfers|
      invariant |lines| == i
      invariant forall k :: 0 <= k < i ==> lines[k] == ChatLine(transfers[k], show)
    {
      var t := transfers[i];
      var fromShort := ShortenAddressOrEmpty(t.fromAddress);
      var toShort := ShortenAddressOrEmpty(t.toAddress);
      lines := lines + [Line(t, fromShort, toShort, show)];
    }
    assert lines == ChatLines(transfers, show);
    var transfersText := JoinLines(lines);
    return ChatResponse(llm(transfersText, question), |transfers|), Some(transfersText);
  }

  /** The summary prompt holds exactly one line per transfer, in transfer order. */
  lemma SummaryTextHasOneLinePerTransfer(transfers: seq<WhaleTransfer>, show: real -> string)
    requires transfers != []
    requires forall i :: 0 <= i < |transfers| ==> PrintsOnOneLine(transfers[i], show)
    ensures var pieces := SplitLines(JoinLines(SummaryLines(transfers, show)));
      && |pieces| == |transfers|
      && forall i :: 0 <= i < |transfers| ==> pieces[i] == SummaryLine(transfers[i], show)
  {
    var lines := SummaryLines(transfers, show);
    forall i | 0 <= i < |lines| ensures '\n' !in lines[i] {
      var t := transfers[i];
      ShortenAddressShape(t.fromAddress);
      ShortenAddressShape(t.toAddress);
      LineShape(t, ShortenAddress(t.fromAddress), ShortenAddress(t.toAddress), show);
    }
    JoinSplitRoundTrip(lines);
  }

  /** The chat prompt holds exactly one line per transfer, in transfer order. */
  lemma ChatTextHasOneLinePerTransfer(transfers: seq<WhaleTransfer>, show: real -> string)
    requires transfers != []
    requires forall i :: 0 <= i < |transfers| ==> PrintsOnOneLine(transfers[i], show)
    ensures var pieces := SplitLines(JoinLines(ChatLines(transfers, show)));
      && |pieces| == |transfers|
      && forall i :: 0 <= i < |transfers| ==> pieces[i] == ChatLine(transfers[i], show)
  {
    var lines := ChatLines(transfers, show);
    forall i | 0 <= i < |lines| ensures '\n' !in lines[i] {
      var t := transfers[i];
      ShortenAddressOrEmptyKeepsOneLine(t.fromAddress);
      ShortenAddressOrEmptyKeepsOneLine(t.toAddress);
      LineShape(t, ShortenAddressOrEmpty(t.fromAddress), ShortenAddressOrEmpty(t.toAddress), show);
    }
    JoinSplitRoundTrip(lines);
  }
}
