/**
  The document-search tool's reply: a header line, one numbered line per hit with a
  cleaned, length-capped excerpt, and a footer; a fixed message when there are no hits and
  an error message when the search raises.
 */
module AskDocs {
  import opened Wrappers
  import opened Text
  import Rag

  const NoDocuments := "No documents found. Please upload PDFs first."
  const Header := "Top matches from uploaded PDFs:"
  const Footer := "\nUse these excerpts to craft a precise answer."
  const FailurePrefix := "Failed to search documents. Error: "
  const SnippetLimit := 400
  const Ellipsis := '…'

  /**
    The characters for which Python's `str.isspace()` holds: tab to carriage return, the
    four information separators, space, next line, no-break space, and the Unicode spaces.
   */
  predicate IsSpace(c: char) {
    || '\U{9}' <= c <= '\U{d}' || '\U{1c}' <= c <= '\U{20}'
    || c == '\U{85}' || c == '\U{a0}' || c == '\U{1680}' || '\U{2000}' <= c <= '\U{200a}'
    || c == '\U{2028}' || c == '\U{2029}' || c == '\U{202f}' || c == '\U{205f}' || c == '\U{3000}'
  }

  /** The end of the run of whitespace in `s` that starts at `k`. */
  function SpaceRunEnd(s: string, k: nat): (n: nat)
    requires k <= |s|
    ensures k <= n <= |s|
    ensures forall i :: k <= i < n ==> IsSpace(s[i])
    ensures n < |s| ==> !IsSpace(s[n])
    decreases |s| - k
  {
    if k < |s| && IsSpace(s[k]) then SpaceRunEnd(s, k + 1) else k
  }

  /** The start of the run of whitespace in `s[lo..k]` that ends at `k`. */
  function SpaceRunStart(s: string, lo: nat, k: nat): (n: nat)
    requires lo <= k <= |s|
    ensures lo <= n <= k
    ensures forall i :: n <= i < k ==> IsSpace(s[i])
    ensures n > lo ==> !IsSpace(s[n - 1])
    decreases k
  {
    if k > lo && IsSpace(s[k - 1]) then SpaceRunStart(s, lo, k - 1) else k
  }

  /** The number of whitespace characters `s` starts with. */
  function LeadingSpaces(s: string): (n: nat)
    ensures n <= |s|
  {
    SpaceRunEnd(s, 0)
  }

  /**
    Python's `s.strip()`: the slice of `s` after its leading whitespace and before its
    trailing whitespace. Everything outside the slice is whitespace and the slice neither
    starts nor ends with whitespace.
   */
  function Strip(s: string): (r: string)
    ensures var a := LeadingSpaces(s);
      && a + |r| <= |s| && r == s[a..a + |r|]
      && (forall i :: 0 <= i < a ==> IsSpace(s[i]))
      && (forall i :: a + |r| <= i < |s| ==> IsSpace(s[i]))
    ensures r != [] ==> !IsSpace(r[0]) && !IsSpace(r[|r| - 1])
  {
    var a := SpaceRunEnd(s, 0);
    var b := SpaceRunStart(s, a, |s|);
    s[a..b]
  }

  /** Python's `s.replace("\n", " ")`. */
  function NewlinesToSpaces(s: string): (r: string)
    ensures |r| == |s|
    ensures forall i :: 0 <= i < |s| ==> r[i] == if s[i] == '\n' then ' ' else s[i]
    ensures forall i :: 0 <= i < |r| ==> r[i] != '\n'
  {
    if s == [] then []
    else [if s[0] == '\n' then ' ' else s[0]] + NewlinesToSpaces(s[1..])
  }

  /**
    The excerpt shown for a hit: the stripped text with newlines turned into spaces, cut to
    400 characters plus an ellipsis when longer.
   */
  function Snippet(text: string): (r: string)
    ensures var clean := NewlinesToSpaces(Strip(text));
      && (|clean| <= SnippetLimit ==> r == clean)
      && (|clean| > SnippetLimit ==> r == clean[..SnippetLimit] + [Ellipsis])
    ensures |r| <= SnippetLimit + 1
    ensures forall i :: 0 <= i < |r| ==> r[i] != '\n'
  {
    var clean := NewlinesToSpaces(Strip(text));
    if |clean| > SnippetLimit then
      var r := clean[..SnippetLimit] + [Ellipsis];
      assert forall i :: 0 <= i < SnippetLimit ==> r[i] == clean[i];
      r
    else clean
  }

  /** Line `n` of the reply: `"{n}. [{name}] {snippet}"`. */
  function Entry(n: nat, hit: Rag.ChunkRecord): string {
    NatToString(n) + ". [" + hit.name + "] " + Snippet(hit.text)
  }

  /** `first` followed by `line(1)`, ..., `line(n)`. */
  function Numbered<T>(first: T, line: nat -> T, n: nat): (r: seq<T>)
    ensures |r| == n + 1 && r[0] == first
  {
    if n == 0 then [first] else Numbered(first, line, n - 1) + [line(n)]
  }

  /** Line `i` of `Numbered(first, line, n)` is `line(i)`. */
  lemma {:induction false} NumberedLines<T>(first: T, line: nat -> T, n: nat)
    ensures forall i :: 0 < i <= n ==> Numbered(first, line, n)[i] == line(i)
  {
    if n > 0 {
      NumberedLines(first, line, n - 1);
      var p := Numbered(first, line, n - 1);
      var q := Numbered(first, line, n);
      forall i | 0 < i <= n ensures q[i] == line(i) {
        if i < n {
          assert q[i] == p[i];
        }
      }
    }
  }

  /** The entry with number `k` (1-based) of the hit list. */
  function EntryLine(hits: seq<Rag.ChunkRecord>): nat -> string {
    (k: nat) => if 0 < k <= |hits| then Entry(k, hits[k - 1]) else ""
  }

  /** The reply's lines for a non-empty hit list. */
  function ReportLines(hits: seq<Rag.ChunkRecord>): (r: seq<string>)
    ensures |r| == |hits| + 2 && r[0] == Header && r[|r| - 1] == Footer
  {
    Numbered(Header, EntryLine(hits), |hits|) + [Footer]
  }

  /** Between the header and the footer, line `i + 1` is the entry of hit `i`. */
  lemma ReportEntries(hits: seq<Rag.ChunkRecord>)
    ensures forall i :: 0 <= i < |hits| ==> ReportLines(hits)[i + 1] == Entry(i + 1, hits[i])
  {
    NumberedLines(Header, EntryLine(hits), |hits|);
    var r := ReportLines(hits);
    forall i | 0 <= i < |hits| ensures r[i + 1] == Entry(i + 1, hits[i]) {
      assert r[i + 1] == Numbered(Header, EntryLine(hits), |hits|)[i + 1];
    }
  }

  /**
    `ask_docs`. `search` is the outcome of the top-5 search: its hits, or the text of the
    exception it raised.
   */
  method AskDocs(search: Result<seq<Rag.ChunkRecord>, string>) returns (reply: string)
    ensures search.Failure? ==> reply == FailurePrefix + search.error
    ensures search.Success? && search.value == [] ==> reply == NoDocuments
    ensures search.Success? && search.value != [] ==> reply == JoinLines(ReportLines(search.value))
  {
    if search.Failure? {
      return FailurePrefix + search.error;
    }
    var hits := search.value;
    if hits == [] {
      return NoDocuments;
    }
    var lines := [Header];
    for i := 0 to |hits|
      invariant lines == Numbered(Header, EntryLine(hits), i)
    {
      var h := hits[i];
      var snippet := Strip(h.text);
      snippet := NewlinesToSpaces(snippet);
      if |snippet| > SnippetLimit {
        snippet := snippet[..SnippetLimit] + [Ellipsis];
      }
      assert snippet == Snippet(h.text);
      lines := lines + [NatToString(i + 1) + ". [" + h.name + "] " + snippet];
    }
    lines := lines + [Footer];
    reply := JoinLines(lines);
  }

  /**
    A reply to a non-empty hit list starts with the header line and ends with the footer,
    and a reply for no hits or a failed search carries the fixed texts.
   */
  lemma ReplyFraming(hits: seq<Rag.ChunkRecord>)
    requires hits != []
    ensures var reply := JoinLines(ReportLines(hits));
      && reply[..|Header| + 1] == Header + "\n"
      && |reply| >= |Footer| && reply[|reply| - |Footer|..] == Footer
  {
    JoinLinesStart(ReportLines(hits));
    JoinLinesEnd(ReportLines(hits));
  }
}
