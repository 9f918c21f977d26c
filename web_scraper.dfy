/** The content extractor (src/core/web_scraper.py): URL validation, choice
    of the main region of a parsed page, removal of non-content subtrees,
    line collapsing, truncation and the readability check.

    A parsed page is a flat sequence of nodes in document order (the order
    BeautifulSoup walks `descendants`), each with the end of its subtree:
    node i's descendants are exactly the nodes i+1 .. ends[i]-1. Node 0 is
    the BeautifulSoup object itself. */
module WebScraper {
  import opened Wrappers
  import opened PyStr
  import Settings

  // ---------------------------------------------------------------------
  // validate_url, over Python's urllib.parse.urlparse
  // ---------------------------------------------------------------------

  predicate IsAsciiLetter(c: char) {
    'a' <= c <= 'z' || 'A' <= c <= 'Z'
  }

  /** The characters urlparse accepts in a scheme. */
  predicate IsSchemeChar(c: char) {
    IsAsciiLetter(c) || '0' <= c <= '9' || c == '+' || c == '-' || c == '.'
  }

  /** What urlparse strips from the front of a URL (C0 controls and space). */
  predicate IsC0OrSpace(c: char) {
    c <= ' '
  }

  /** Characters urlparse deletes wherever they occur. */
  predicate IsUnsafeUrlChar(c: char) {
    c == '\t' || c == '\r' || c == '\n'
  }

  /** The characters that end the authority part. */
  predicate IsNetlocDelimiter(c: char) {
    c == '/' || c == '?' || c == '#'
  }

  function LStripC0(s: string): string {
    if s != [] && IsC0OrSpace(s[0]) then LStripC0(s[1..]) else s
  }

  /** urlparse's deletion of tab, CR and LF: every other character of the
      input is kept, and a string without them comes back unchanged. */
  function RemoveUnsafe(s: string): (r: string)
    ensures forall c :: c in r <==> c in s && !IsUnsafeUrlChar(c)
    ensures (forall k :: 0 <= k < |s| ==> !IsUnsafeUrlChar(s[k])) ==> r == s
  {
    if s == [] then []
    else (if IsUnsafeUrlChar(s[0]) then [] else [s[0]]) + RemoveUnsafe(s[1..])
  }

  function AsciiLower(s: string): (r: string)
    ensures |r| == |s|
  {
    if s == [] then []
    else [if 'A' <= s[0] <= 'Z' then (s[0] as int + 32) as char else s[0]] + AsciiLower(s[1..])
  }

  /** The first position at or after `from` holding '/', '?' or '#', or |s|. */
  function NetlocEnd(s: string, from: nat): (r: nat)
    requires from <= |s|
    ensures from <= r <= |s|
    ensures forall k :: from <= k < r ==> !IsNetlocDelimiter(s[k])
    ensures r < |s| ==> IsNetlocDelimiter(s[r])
    decreases |s| - from
  {
    if from == |s| || IsNetlocDelimiter(s[from]) then from else NetlocEnd(s, from + 1)
  }

  /** The scheme and the authority (netloc, section 3.2 of RFC 3986) that
      urlparse finds; Failure is the ValueError it raises on an unbalanced
      IPv6 bracket. */
  datatype UrlParts = UrlParts(scheme: string, netloc: string)

  /** The scheme, lower-cased, and what follows its colon; no scheme when
      the text before the first colon is empty, does not start with a
      letter or holds a character outside the scheme set. */
  function SplitScheme(u: string): (string, string) {
    var i := Find(u, ":");
    if 0 < i && IsAsciiLetter(u[0]) && forall k :: 0 <= k < i ==> IsSchemeChar(u[k])
    then (AsciiLower(u[..i]), u[i + 1..])
    else ("", u)
  }

  /** The authority after a leading "//", up to the first '/', '?' or '#';
      empty without "//"; an error on an unbalanced IPv6 bracket. */
  function SplitNetloc(rest: string): Result<string, string> {
    if StartsWith(rest, "//") then
      var netloc := rest[2..NetlocEnd(rest, 2)];
      if Contains(netloc, "[") != Contains(netloc, "]") then Failure("Invalid IPv6 URL")
      else Success(netloc)
    else Success("")
  }

  function UrlParse(url: string): Result<UrlParts, string> {
    var (scheme, rest) := SplitScheme(RemoveUnsafe(LStripC0(url)));
    match SplitNetloc(rest)
    case Failure(e) => Failure(e)
    case Success(netloc) => Success(UrlParts(scheme, netloc))
  }

  const InvalidUrlMessage := "Please enter a valid URL with http:// or https://"
  const ValidUrlMessage := "URL format is valid"

  /** `validate_url`: (False, message) exactly when the scheme or the
      netloc is empty; a ValueError from urlparse propagates (Failure). */
  function ValidateUrl(url: string): (r: Result<(bool, string), string>)
    ensures r.Success? <==> UrlParse(url).Success?
    ensures r.Success? ==>
      (r.value.0 <==> UrlParse(url).value.scheme != "" && UrlParse(url).value.netloc != "")
    ensures r.Success? ==> r.value.1 == if r.value.0 then ValidUrlMessage else InvalidUrlMessage
  {
    match UrlParse(url)
    case Failure(e) => Failure(e)
    case Success(parts) =>
      if parts.scheme == "" || parts.netloc == "" then Success((false, InvalidUrlMessage))
      else Success((true, ValidUrlMessage))
  }

  /** A scheme made of scheme characters and led by a letter, a non-empty
      host without delimiters or brackets, and a path that is empty or
      starts with '/', form a URL validate_url accepts. */
  lemma {:induction false} SchemeAndHostAccepted(scheme: string, host: string, path: string)
    requires scheme != [] && IsAsciiLetter(scheme[0])
    requires forall k :: 0 <= k < |scheme| ==> IsSchemeChar(scheme[k])
    requires host != []
    requires forall k :: 0 <= k < |host| ==>
               !IsNetlocDelimiter(host[k]) && !IsUnsafeUrlChar(host[k]) && host[k] != '[' && host[k] != ']'
    requires path == [] || path[0] == '/'
    requires forall k :: 0 <= k < |path| ==> !IsUnsafeUrlChar(path[k])
    ensures ValidateUrl(scheme + "://" + host + path) == Success((true, ValidUrlMessage))
  {
    var rest := "//" + host + path;
    assert scheme + "://" + host + path == scheme + ":" + rest;
    SanitizeKeeps(scheme, host, path);
    SchemeSplit(scheme, rest);
    HostSplit(host, path);
  }

  /** Such a URL has nothing for urlparse to strip or delete. */
  lemma SanitizeKeeps(scheme: string, host: string, path: string)
    requires scheme != [] && IsAsciiLetter(scheme[0])
    requires forall k :: 0 <= k < |scheme| ==> IsSchemeChar(scheme[k])
    requires forall k :: 0 <= k < |host| ==> !IsUnsafeUrlChar(host[k])
    requires forall k :: 0 <= k < |path| ==> !IsUnsafeUrlChar(path[k])
    ensures var url := scheme + ":" + ("//" + host + path); RemoveUnsafe(LStripC0(url)) == url
  {
    var url := scheme + ":" + ("//" + host + path);
    assert url[0] == scheme[0];
    assert LStripC0(url) == url;
    forall k | 0 <= k < |url| ensures !IsUnsafeUrlChar(url[k]) {
      if k < |scheme| {
        assert url[k] == scheme[k];
      } else if |scheme| + 3 <= k < |scheme| + 3 + |host| {
        assert url[k] == host[k - |scheme| - 3];
      } else if |scheme| + 3 + |host| <= k {
        assert url[k] == path[k - |scheme| - 3 - |host|];
      }
    }
  }

  /** A letter-led run of scheme characters before the first colon is the
      scheme. */
  lemma SchemeSplit(scheme: string, rest: string)
    requires scheme != [] && IsAsciiLetter(scheme[0])
    requires forall k :: 0 <= k < |scheme| ==> IsSchemeChar(scheme[k])
    ensures SplitScheme(scheme + ":" + rest) == (AsciiLower(scheme), rest)
  {
    var url := scheme + ":" + rest;
    SchemeColon(scheme, rest);
    assert url[..|scheme|] == scheme;
    assert forall k :: 0 <= k < |scheme| ==> IsSchemeChar(url[k]);
    assert url[|scheme| + 1..] == rest;
  }

  /** A host without delimiters or brackets, after "//", is the netloc. */
  lemma HostSplit(host: string, path: string)
    requires forall k :: 0 <= k < |host| ==>
               !IsNetlocDelimiter(host[k]) && host[k] != '[' && host[k] != ']'
    requires path == [] || path[0] == '/'
    ensures SplitNetloc("//" + host + path) == Success(host)
  {
    HostNetloc(host, path);
    NoCharNoOccurrence(host, '[');
    NoCharNoOccurrence(host, ']');
  }

  /** The first colon of a URL that starts with scheme characters and a
      colon is the one after the scheme. */
  lemma SchemeColon(scheme: string, rest: string)
    requires forall k :: 0 <= k < |scheme| ==> IsSchemeChar(scheme[k])
    ensures Find(scheme + ":" + rest, ":") == |scheme|
  {
    var url := scheme + ":" + rest;
    assert OccursAt(url, ":", |scheme|);
    forall k | 0 <= k < |scheme| ensures !OccursAt(url, ":", k) {
      assert url[k] == scheme[k];
    }
  }

  /** After "//", the authority runs up to the first '/', '?' or '#'. */
  lemma HostNetloc(host: string, path: string)
    requires forall k :: 0 <= k < |host| ==> !IsNetlocDelimiter(host[k])
    requires path == [] || path[0] == '/'
    ensures var rest := "//" + host + path; rest[2..NetlocEnd(rest, 2)] == host
  {
    var rest := "//" + host + path;
    var e := NetlocEnd(rest, 2);
    forall k | 2 <= k < 2 + |host| ensures !IsNetlocDelimiter(rest[k]) {
      assert rest[k] == host[k - 2];
    }
    assert 2 + |host| < |rest| ==> IsNetlocDelimiter(rest[2 + |host|]);
  }

  /** A URL without a colon has no scheme, so validate_url rejects it (a
      bare host, or a protocol-relative "//host/path"). */
  lemma {:induction false} NoSchemeRejected(url: string)
    requires forall k :: 0 <= k < |url| ==> url[k] != ':' && url[k] != '[' && url[k] != ']'
    ensures ValidateUrl(url) == Success((false, InvalidUrlMessage))
  {
    var u := RemoveUnsafe(LStripC0(url));
    LStripC0Suffix(url);
    forall k | 0 <= k < |u| ensures u[k] != ':' && u[k] != '[' && u[k] != ']' {
      assert u[k] in u;
    }
    NoCharNoOccurrence(u, ':');
    assert Find(u, ":") == -1;
    assert SplitScheme(u) == ("", u);
    if StartsWith(u, "//") {
      var netloc := u[2..NetlocEnd(u, 2)];
      forall k | 0 <= k < |netloc| ensures netloc[k] != '[' && netloc[k] != ']' {
        assert netloc[k] == u[2 + k];
      }
      NoCharNoOccurrence(netloc, '[');
      NoCharNoOccurrence(netloc, ']');
    }
    assert SplitNetloc(u).Success?;
  }

  lemma LStripC0Suffix(s: string)
    ensures forall c :: c in LStripC0(s) ==> c in s
  {
    if s != [] && IsC0OrSpace(s[0]) {
      LStripC0Suffix(s[1..]);
    }
  }

  /** The deletion works character by character: cleaning a concatenation
      cleans each part and keeps them in order. */
  lemma {:induction false} RemoveUnsafeAppend(a: string, b: string)
    ensures RemoveUnsafe(a + b) == RemoveUnsafe(a) + RemoveUnsafe(b)
    decreases |a|
  {
    if a == [] {
      assert a + b == b;
    } else {
      assert (a + b)[0] == a[0];
      assert (a + b)[1..] == a[1..] + b;
      RemoveUnsafeAppend(a[1..], b);
    }
  }

  /** A one-character needle occurs exactly where that character stands. */
  lemma NoCharNoOccurrence(s: string, c: char)
    requires forall k :: 0 <= k < |s| ==> s[k] != c
    ensures !Contains(s, [c])
  {
    forall k | 0 <= k < |s| ensures !OccursAt(s, [c], k) {
      assert s[k..k + 1][0] == s[k];
    }
  }

  // ---------------------------------------------------------------------
  // The parsed page
  // ---------------------------------------------------------------------

  /** A node of the parse tree. `Other` stands for the strings get_text
      skips: comments, doctype and processing instructions, and also the
      text inside script, style and template tags, which bs4 keeps apart
      from ordinary text. */
  datatype Node =
    | Element(name: string, attrs: map<string, string>, classes: seq<string>)
    | Text(text: string)
    | Other(text: string)

  datatype Doc = Doc(nodes: seq<Node>, ends: seq<int>)

  /** Subtrees nest: each node's subtree is a range that starts at the node,
      a range that starts inside another ends inside it, and only elements
      have children. */
  predicate WellFormed(d: Doc) {
    && |d.nodes| == |d.ends| >= 1
    && d.nodes[0].Element? && d.ends[0] == |d.nodes|
    && (forall i :: 0 <= i < |d.nodes| ==> i < d.ends[i] <= |d.nodes|)
    && (forall i :: 0 <= i < |d.nodes| && !d.nodes[i].Element? ==> d.ends[i] == i + 1)
    && (forall i, j :: 0 <= i < j < |d.nodes| && j < d.ends[i] ==> d.ends[j] <= d.ends[i])
  }

  type Document = d: Doc | WellFormed(d) witness Doc([Element("[document]", map[], [])], [1])

  /** Every node of the page still attached. */
  function AllLive(d: Document): seq<bool> {
    seq(|d.nodes|, _ => true)
  }

  /** The strings `get_text(strip=True)` collects from nodes lo .. hi-1,
      in document order: each attached text node's content, stripped, when
      that is not empty. */
  function Pieces(nodes: seq<Node>, live: seq<bool>, lo: nat, hi: nat): seq<string>
    requires |live| == |nodes| && hi <= |nodes|
    decreases hi
  {
    if hi <= lo then []
    else
      var n := nodes[hi - 1];
      Pieces(nodes, live, lo, hi - 1)
      + (if live[hi - 1] && n.Text? && Strip(n.text) != "" then [Strip(n.text)] else [])
  }

  /** Every collected string is the stripped content of an attached text
      node of the range. */
  lemma {:induction false} PieceSource(nodes: seq<Node>, live: seq<bool>, lo: nat, hi: nat, p: string)
    requires |live| == |nodes| && hi <= |nodes|
    requires p in Pieces(nodes, live, lo, hi)
    ensures exists k :: lo <= k < hi && live[k] && nodes[k].Text? && p == Strip(nodes[k].text)
    decreases hi
  {
    if hi > lo {
      var n := nodes[hi - 1];
      var rest := Pieces(nodes, live, lo, hi - 1);
      var last := if live[hi - 1] && n.Text? && Strip(n.text) != "" then [Strip(n.text)] else [];
      assert Pieces(nodes, live, lo, hi) == rest + last;
      if p in rest {
        PieceSource(nodes, live, lo, hi - 1, p);
        var k :| lo <= k < hi - 1 && live[k] && nodes[k].Text? && p == Strip(nodes[k].text);
        assert lo <= k < hi;
      } else {
        assert p in last;
        assert lo <= hi - 1 < hi && live[hi - 1] && nodes[hi - 1].Text? && p == Strip(nodes[hi - 1].text);
      }
    }
  }

  /** The total length of the strings collected from nodes lo .. hi-1. */
  function PiecesLength(nodes: seq<Node>, live: seq<bool>, lo: nat, hi: nat): nat
    requires |live| == |nodes| && hi <= |nodes|
    decreases hi
  {
    if hi <= lo then 0
    else
      var n := nodes[hi - 1];
      PiecesLength(nodes, live, lo, hi - 1) + (if live[hi - 1] && n.Text? then |Strip(n.text)| else 0)
  }

  /** Joining with no separator concatenates: the length of the joined
      text is the sum of the stripped lengths (blank pieces add nothing). */
  lemma {:induction false} JoinedPiecesLength(nodes: seq<Node>, live: seq<bool>, lo: nat, hi: nat)
    requires |live| == |nodes| && hi <= |nodes|
    ensures |Join(Pieces(nodes, live, lo, hi), "")| == PiecesLength(nodes, live, lo, hi)
    decreases hi
  {
    if hi > lo {
      JoinedPiecesLength(nodes, live, lo, hi - 1);
      var n := nodes[hi - 1];
      var last := if live[hi - 1] && n.Text? && Strip(n.text) != "" then [Strip(n.text)] else [];
      JoinAppend(Pieces(nodes, live, lo, hi - 1), last);
    }
  }

  /** With an empty separator, joining a concatenation is concatenating the joins. */
  lemma {:induction false} JoinAppend(a: seq<string>, b: seq<string>)
    ensures Join(a + b, "") == Join(a, "") + Join(b, "")
    decreases |a|
  {
    if a == [] {
      assert a + b == b;
    } else if |a| == 1 {
      if b != [] {
        assert a + b == [a[0]] + b;
        assert (a + b)[1..] == b;
      }
    } else {
      JoinAppend(a[1..], b);
      assert (a + b)[1..] == a[1..] + b;
    }
  }

  /** `len(node.get_text(strip=True))` on the unmodified page. */
  function StrippedTextLength(d: Document, i: nat): nat
    requires i < |d.nodes|
  {
    PiecesLength(d.nodes, AllLive(d), i + 1, d.ends[i])
  }

  // ---------------------------------------------------------------------
  // extract_main_content
  // ---------------------------------------------------------------------

  /** The CSS selector forms the core uses: `tag`, `[attr="value"]`,
      `.class` and `#id`. */
  datatype Selector = Tag(name: string) | AttrEquals(attr: string, value: string) | Class(cls: string) | Id(id: string)

  predicate Matches(sel: Selector, n: Node) {
    n.Element? &&
    match sel
    case Tag(name) => n.name == name
    case AttrEquals(a, v) => a in n.attrs && n.attrs[a] == v
    case Class(c) => c in n.classes
    case Id(id) => "id" in n.attrs && n.attrs["id"] == id
  }

  /** The selectors tried for the main region, highest priority first. */
  const MainSelectors: seq<Selector> := [
    Tag("main"), Tag("article"), AttrEquals("role", "main"),
    Class("content"), Class("post-content"), Class("entry-content"),
    Id("content"), Id("main-content"), Class("main-content")
  ]

  /** The first node at or after k, in document order, that `sel` matches. */
  function FirstMatchFrom(d: Document, sel: Selector, k: nat): (r: Option<nat>)
    requires k <= |d.nodes|
    ensures r.Some? ==> k <= r.value < |d.nodes| && Matches(sel, d.nodes[r.value])
    ensures r.Some? ==> forall j :: k <= j < r.value ==> !Matches(sel, d.nodes[j])
    ensures r.None? ==> forall j :: k <= j < |d.nodes| ==> !Matches(sel, d.nodes[j])
    decreases |d.nodes| - k
  {
    if k == |d.nodes| then None
    else if Matches(sel, d.nodes[k]) then Some(k)
    else FirstMatchFrom(d, sel, k + 1)
  }

  /** `soup.select_one(sel)`: the first matching descendant of the document. */
  function SelectOne(d: Document, sel: Selector): Option<nat> {
    FirstMatchFrom(d, sel, 1)
  }

  /** The index of the first selector, from position `from` on, that matches
      anything, or |sels| when none does. */
  function FirstMatchingSelector(d: Document, sels: seq<Selector>, from: nat): (i: nat)
    requires from <= |sels|
    ensures from <= i <= |sels|
    ensures forall j :: from <= j < i ==> SelectOne(d, sels[j]).None?
    ensures i < |sels| ==> SelectOne(d, sels[i]).Some?
    decreases |sels| - from
  {
    if from == |sels| || SelectOne(d, sels[from]).Some? then from
    else FirstMatchingSelector(d, sels, from + 1)
  }

  predicate IsTextContainer(n: Node) {
    n.Element? && (n.name == "div" || n.name == "section" || n.name == "article")
  }

  /** `soup.find_all(['div', 'section', 'article'])`, as positions from k on. */
  function ContainersFrom(d: Document, k: nat): (cs: seq<nat>)
    requires k <= |d.nodes|
    ensures forall i :: 0 <= i < |cs| ==> k <= cs[i] < |d.nodes| && IsTextContainer(d.nodes[cs[i]])
    ensures forall j :: k <= j < |d.nodes| && IsTextContainer(d.nodes[j]) ==> j in cs
    ensures forall i, j :: 0 <= i < j < |cs| ==> cs[i] < cs[j]
    decreases |d.nodes| - k
  {
    if k == |d.nodes| then []
    else (if IsTextContainer(d.nodes[k]) then [k] else []) + ContainersFrom(d, k + 1)
  }

  function Containers(d: Document): seq<nat> {
    ContainersFrom(d, 1)
  }

  /** `max` with a key, over the keys: the position of the first greatest
      one, as Python's max keeps the first maximum. */
  function FirstMax(keys: seq<int>): (p: nat)
    requires keys != []
    ensures p < |keys|
    ensures forall i :: 0 <= i < |keys| ==> keys[i] <= keys[p]
    ensures forall i :: 0 <= i < p ==> keys[i] < keys[p]
    decreases |keys|
  {
    if |keys| == 1 then 0
    else
      var best := FirstMax(keys[..|keys| - 1]);
      if keys[|keys| - 1] > keys[best] then |keys| - 1 else best
  }

  /** The stripped text length of each container, in order. */
  function TextLengths(d: Document, cs: seq<nat>): (lens: seq<int>)
    requires forall i :: 0 <= i < |cs| ==> cs[i] < |d.nodes|
    ensures |lens| == |cs|
    ensures forall i :: 0 <= i < |cs| ==> lens[i] == StrippedTextLength(d, cs[i])
  {
    seq(|cs|, i requires 0 <= i < |cs| => StrippedTextLength(d, cs[i]))
  }

  /** `max(text_containers, key=lambda x: len(x.get_text(strip=True)))`. */
  function Largest(d: Document, cs: seq<nat>): nat
    requires cs != [] && forall i :: 0 <= i < |cs| ==> cs[i] < |d.nodes|
  {
    cs[FirstMax(TextLengths(d, cs))]
  }

  /** The minimum stripped text length (exclusive) for the largest block. */
  const LargestBlockThreshold := 200

  /** `soup.find('body') or soup`. */
  function BodyOrDocument(d: Document): (r: nat)
    ensures r < |d.nodes| && d.nodes[r].Element?
  {
    match SelectOne(d, Tag("body"))
    case Some(b) => b
    case None => 0
  }

  /** `extract_main_content(soup)`: the first match of the earliest selector
      that matches; failing that, the largest div/section/article when its
      stripped text is longer than 200 characters; failing that, the body
      or the whole document. The result is always an element. */
  function ExtractMainContent(d: Document): (r: nat)
    ensures r < |d.nodes| && d.nodes[r].Element?
  {
    var i := FirstMatchingSelector(d, MainSelectors, 0);
    if i < |MainSelectors| then SelectOne(d, MainSelectors[i]).value
    else
      var cs := Containers(d);
      if cs != [] && StrippedTextLength(d, Largest(d, cs)) > LargestBlockThreshold then Largest(d, cs)
      else BodyOrDocument(d)
  }

  /** When selector i is the first of the list that matches anything, the
      region is its first match, whatever the selectors after it match. */
  lemma SelectorPriority(d: Document, i: nat)
    requires i < |MainSelectors| && SelectOne(d, MainSelectors[i]).Some?
    requires forall j :: 0 <= j < i ==> SelectOne(d, MainSelectors[j]).None?
    ensures ExtractMainContent(d) == SelectOne(d, MainSelectors[i]).value
  {
    assert FirstMatchingSelector(d, MainSelectors, 0) == i;
  }

  /** In a strictly increasing sequence, a smaller value sits earlier. */
  lemma IncreasingIndex(cs: seq<nat>, q: nat, p: nat)
    requires forall i, j :: 0 <= i < j < |cs| ==> cs[i] < cs[j]
    requires q < |cs| && p < |cs| && cs[q] < cs[p]
    ensures q < p
  {
  }

  /** The largest block is a div, section or article of the page whose
      stripped text is at least as long as any other's and strictly longer
      than that of every one before it. */
  lemma LargestIsFirstMaximum(d: Document)
    requires Containers(d) != []
    ensures var r := Largest(d, Containers(d));
            && 1 <= r < |d.nodes| && IsTextContainer(d.nodes[r])
            && (forall j :: 1 <= j < |d.nodes| && IsTextContainer(d.nodes[j]) ==> StrippedTextLength(d, j) <= StrippedTextLength(d, r))
            && (forall j :: 1 <= j < r && IsTextContainer(d.nodes[j]) ==> StrippedTextLength(d, j) < StrippedTextLength(d, r))
  {
    var cs := Containers(d);
    var lens := TextLengths(d, cs);
    var p := FirstMax(lens);
    var r := cs[p];
    forall m | 1 <= m < |d.nodes| && IsTextContainer(d.nodes[m])
      ensures StrippedTextLength(d, m) <= StrippedTextLength(d, r)
      ensures m < r ==> StrippedTextLength(d, m) < StrippedTextLength(d, r)
    {
      assert m in cs;
      var q :| 0 <= q < |cs| && cs[q] == m;
      assert lens[q] <= lens[p];
      if m < r {
        IncreasingIndex(cs, q, p);
        assert lens[q] < lens[p];
      }
    }
  }

  /** With no selector match, the region is the first container of greatest
      stripped text if that text is longer than 200 characters, else the body
      or the document. */
  lemma LargestBlockFallback(d: Document)
    requires forall j :: 0 <= j < |MainSelectors| ==> SelectOne(d, MainSelectors[j]).None?
    ensures var r := ExtractMainContent(d);
            if exists j :: 1 <= j < |d.nodes| && IsTextContainer(d.nodes[j]) && StrippedTextLength(d, j) > LargestBlockThreshold
            then IsTextContainer(d.nodes[r])
                 && (forall j :: 1 <= j < |d.nodes| && IsTextContainer(d.nodes[j]) ==> StrippedTextLength(d, j) <= StrippedTextLength(d, r))
                 && (forall j :: 1 <= j < r && IsTextContainer(d.nodes[j]) ==> StrippedTextLength(d, j) < StrippedTextLength(d, r))
            else r == BodyOrDocument(d)
  {
    assert FirstMatchingSelector(d, MainSelectors, 0) == |MainSelectors|;
    var cs := Containers(d);
    if exists j :: 1 <= j < |d.nodes| && IsTextContainer(d.nodes[j]) && StrippedTextLength(d, j) > LargestBlockThreshold {
      var j :| 1 <= j < |d.nodes| && IsTextContainer(d.nodes[j]) && StrippedTextLength(d, j) > LargestBlockThreshold;
      assert j in cs;
      LargestIsFirstMaximum(d);
    } else if cs != [] {
      LargestIsFirstMaximum(d);
    }
  }

  // ---------------------------------------------------------------------
  // fast_clean_text
  // ---------------------------------------------------------------------

  /** The tags whose subtrees are removed before text extraction. */
  predicate IsNonContent(n: Node) {
    n.Element? && n.name in {"script", "style", "nav", "header", "footer", "aside", "form", "button"}
  }

  /** Node k lies in the subtree of a non-content descendant j of `root`
      with root < j < bound. */
  predicate RemovedBefore(d: Document, root: nat, bound: nat, k: int) {
    exists j :: root < j < bound && j < |d.nodes| && IsNonContent(d.nodes[j]) && j <= k < d.ends[j]
  }

  /** Node k is under some non-content descendant of `root` (not `root`
      itself: find_all searches below the element it is called on). */
  predicate Removed(d: Document, root: nat, k: int)
    requires root < |d.nodes|
  {
    RemovedBefore(d, root, d.ends[root], k)
  }

  lemma RemovedBeforeStep(d: Document, root: nat, j: nat, k: int)
    requires j < |d.nodes|
    ensures RemovedBefore(d, root, j + 1, k)
            <==> RemovedBefore(d, root, j, k) || (root < j && IsNonContent(d.nodes[j]) && j <= k < d.ends[j])
  {
    if RemovedBefore(d, root, j + 1, k) {
      var m :| root < m < j + 1 && m < |d.nodes| && IsNonContent(d.nodes[m]) && m <= k < d.ends[m];
      if m < j {
        assert RemovedBefore(d, root, j, k);
      }
    }
  }

  /** Which nodes of the region below `root` survive cleaning. */
  function Pruned(d: Document, root: nat): (keep: seq<bool>)
    requires root < |d.nodes|
    ensures |keep| == |d.nodes|
  {
    seq(|d.nodes|, k => !Removed(d, root, k))
  }

  /** `fast_clean_text(element)` as a value: the text of the region with
      every non-content subtree removed, collapsed. */
  function CleanedText(d: Document, root: nat): string
    requires root < |d.nodes|
  {
    Collapse(Join(Pieces(d.nodes, Pruned(d, root), root + 1, d.ends[root]), " "))
  }

  /** Nothing from a script, style, nav, header, footer, aside, form or
      button below the region survives: every string of the cleaned text
      comes from a text node of the region that lies under none of them. */
  lemma CleanedTextSources(d: Document, root: nat, p: string)
    requires root < |d.nodes|
    requires p in Pieces(d.nodes, Pruned(d, root), root + 1, d.ends[root])
    ensures exists k :: root < k < d.ends[root] && d.nodes[k].Text? && p == Strip(d.nodes[k].text)
                        && forall j :: root < j <= k && IsNonContent(d.nodes[j]) ==> d.ends[j] <= k
  {
    PieceSource(d.nodes, Pruned(d, root), root + 1, d.ends[root], p);
    var k :| root + 1 <= k < d.ends[root] && Pruned(d, root)[k] && d.nodes[k].Text? && p == Strip(d.nodes[k].text);
    assert !Removed(d, root, k);
    forall j | root < j <= k && IsNonContent(d.nodes[j]) ensures d.ends[j] <= k {
    }
  }

  /** The parsed page, whose nodes `decompose()` detaches in place. */
  class Soup {
    const doc: Document
    var live: seq<bool>

    ghost predicate Valid()
      reads this
    {
      |live| == |doc.nodes|
    }

    constructor (d: Document)
      ensures Valid() && doc == d && live == AllLive(d)
    {
      doc := d;
      live := AllLive(d);
    }

    /** `node.decompose()`: node i and its whole subtree leave the tree. */
    method Decompose(i: nat)
      requires Valid() && i < |doc.nodes|
      modifies this
      ensures Valid()
      ensures forall k :: 0 <= k < |live| ==> live[k] == (old(live[k]) && !(i <= k < doc.ends[i]))
    {
      var k := i;
      while k < doc.ends[i]
        invariant i <= k <= doc.ends[i]
        invariant |live| == |doc.nodes|
        invariant forall m :: 0 <= m < |live| ==> live[m] == (old(live[m]) && !(i <= m < k))
      {
        live := live[k := false];
        k := k + 1;
      }
    }

    /** `fast_clean_text(element)`: decompose every non-content descendant
        of `root`, then collect and collapse the text that is left. */
    method FastCleanText(root: nat) returns (text: string)
      requires Valid() && root < |doc.nodes|
      modifies this
      ensures Valid()
      ensures forall k :: 0 <= k < |live| ==> live[k] == (old(live[k]) && !Removed(doc, root, k))
      ensures text == Collapse(Join(Pieces(doc.nodes, live, root + 1, doc.ends[root]), " "))
    {
      var j := root + 1;
      while j < doc.ends[root]
        invariant root + 1 <= j <= doc.ends[root]
        invariant Valid()
        invariant forall k :: 0 <= k < |live| ==> live[k] == (old(live[k]) && !RemovedBefore(doc, root, j, k))
      {
        if IsNonContent(doc.nodes[j]) {
          Decompose(j);
        }
        forall k | 0 <= k < |live|
          ensures live[k] == (old(live[k]) && !RemovedBefore(doc, root, j + 1, k))
        {
          RemovedBeforeStep(doc, root, j, k);
        }
        j := j + 1;
      }
      text := Collapse(Join(Pieces(doc.nodes, live, root + 1, doc.ends[root]), " "));
    }
  }

  // ---------------------------------------------------------------------
  // Collapsing lines
  // ---------------------------------------------------------------------

  /** `[line.strip() for line in lines if line.strip()]`. */
  function NonBlankLines(lines: seq<string>): (r: seq<string>)
    ensures forall i :: 0 <= i < |r| ==> r[i] != "" && Trimmed(r[i])
    ensures (forall i :: 0 <= i < |lines| ==> '\n' !in lines[i]) ==> forall i :: 0 <= i < |r| ==> '\n' !in r[i]
  {
    if lines == [] then []
    else
      StripKeepsContent(lines[0]);
      StripIsTrimmed(lines[0]);
      (if Strip(lines[0]) != "" then [Strip(lines[0])] else []) + NonBlankLines(lines[1..])
  }

  /** Joining non-empty trimmed pieces without newlines with single spaces
      gives a trimmed text without newlines. */
  lemma {:induction false} JoinTrimmed(pieces: seq<string>)
    requires forall i :: 0 <= i < |pieces| ==> pieces[i] != "" && Trimmed(pieces[i]) && '\n' !in pieces[i]
    ensures Trimmed(Join(pieces, " ")) && '\n' !in Join(pieces, " ")
    ensures pieces != [] ==> Join(pieces, " ") != ""
  {
    if |pieces| > 1 {
      JoinTrimmed(pieces[1..]);
      var tail := Join(pieces[1..], " ");
      var all := pieces[0] + " " + tail;
      assert all[0] == pieces[0][0];
      assert all[|all| - 1] == tail[|tail| - 1];
    }
  }

  /** A line without '\n' splits into itself alone. */
  lemma SplitSingleLine(s: string)
    requires '\n' !in s
    ensures Split(s, "\n") == [s]
  {
    forall k | 0 <= k < |s| ensures s[k] != '\n' {
      assert s[k] in s;
    }
    NoCharNoOccurrence(s, '\n');
  }

  lemma SplitPiecesHaveNoNewline(s: string)
    ensures forall i :: 0 <= i < |Split(s, "\n")| ==> '\n' !in Split(s, "\n")[i]
  {
    var lines := Split(s, "\n");
    forall i | 0 <= i < |lines| ensures '\n' !in lines[i] {
      if '\n' in lines[i] {
        var k :| 0 <= k < |lines[i]| && lines[i][k] == '\n';
        assert OccursAt(lines[i], "\n", k);
      }
    }
  }

  /** The line collapse of fast_clean_text: split on '\n', strip every line,
      drop the empty ones, join with single spaces. The result has no
      newline and no whitespace at either end. */
  function Collapse(text: string): (r: string)
    ensures '\n' !in r && Trimmed(r)
  {
    var lines := NonBlankLines(Split(text, "\n"));
    SplitPiecesHaveNoNewline(text);
    JoinTrimmed(lines);
    Join(lines, " ")
  }

  /** A single trimmed line survives the blank-line filter unchanged,
      unless it is empty. */
  lemma NonBlankSingle(c: string)
    requires Trimmed(c)
    ensures NonBlankLines([c]) == if c == "" then [] else [c]
  {
    StripTrimmed(c);
    assert [c][1..] == [];
  }

  /** Collapsing twice is collapsing once. */
  lemma {:induction false} CollapseIdempotent(text: string)
    ensures Collapse(Collapse(text)) == Collapse(text)
  {
    var c := Collapse(text);
    SplitSingleLine(c);
    NonBlankSingle(c);
    assert Collapse(c) == Join(NonBlankLines([c]), " ");
  }

  // ---------------------------------------------------------------------
  // fetch_and_clean_content
  // ---------------------------------------------------------------------

  const Ellipsis := "..."

  /** The truncation step: `text[:max_chars] + "..."` when the text is longer
      than max_chars, the text itself otherwise. */
  function Truncate(text: string, maxChars: int): string {
    if |text| > maxChars then PyPrefix(text, maxChars) + Ellipsis else text
  }

  /** For a non-negative budget, a truncated text is its first max_chars
      characters followed by "...", so it is exactly max_chars + 3 long;
      a text within budget is unchanged. */
  lemma TruncateShape(text: string, maxChars: nat)
    ensures |text| <= maxChars ==> Truncate(text, maxChars) == text
    ensures |text| > maxChars ==> Truncate(text, maxChars) == text[..maxChars] + Ellipsis
                                  && |Truncate(text, maxChars)| == maxChars + 3
    ensures |Truncate(text, maxChars)| <= maxChars + 3
  {
  }

  const MinReadableChars := 50
  const NoReadableContent := "No readable content found on the page"

  /** The readability check, made after truncation on the stripped text. */
  function CheckReadable(text: string): (r: Result<string, string>)
    ensures r.Success? <==> |Strip(text)| >= MinReadableChars
    ensures r.Success? ==> r.value == text
    ensures r.Failure? ==> r.error == NoReadableContent
  {
    if |Strip(text)| < MinReadableChars then Failure(NoReadableContent) else Success(text)
  }

  /** Because truncation comes first, a budget under 47 characters rejects
      every page. */
  lemma SmallBudgetRejectsEverything(text: string, maxChars: nat)
    requires maxChars + 3 < MinReadableChars
    ensures CheckReadable(Truncate(text, maxChars)).Failure?
  {
    StripKeepsContent(Truncate(text, maxChars));
  }

  newtype byte = x: int | 0 <= x < 256

  datatype FetchRequest = FetchRequest(url: string, headers: seq<(string, string)>, timeout: int)

  /** What `requests.get(...)` and reading `response.content` come to:
      a timeout, another requests error, some other exception, or a
      response with its status, reason, final URL and body. */
  datatype FetchOutcome =
    | TimedOut
    | RequestFailed(message: string)
    | Crashed(message: string)
    | Fetched(status: int, reason: string, finalUrl: string, body: seq<byte>)

  datatype ParseOutcome = Parsed(doc: Document) | ParseFailed(message: string)

  /** The network and the two HTML parsers (lxml, then html.parser). */
  datatype Web = Web(
    fetch: FetchRequest -> FetchOutcome,
    lxml: seq<byte> -> ParseOutcome,
    htmlParser: seq<byte> -> ParseOutcome)

  function RequestHeaders(userAgent: string): seq<(string, string)> {
    [("User-Agent", userAgent),
     ("Accept", "text/html,application/xhtml+xml"),
     ("Accept-Encoding", "gzip, deflate"),
     ("Accept-Language", "en-US,en;q=0.5"),
     ("Connection", "keep-alive")]
  }

  const MaxFetchTimeout := 10

  /** `min(configured, 10)`. */
  function EffectiveTimeout(configured: int): (t: int)
    ensures t <= MaxFetchTimeout
    ensures t == configured || t == MaxFetchTimeout
    ensures configured <= MaxFetchTimeout ==> t == configured
  {
    if configured < MaxFetchTimeout then configured else MaxFetchTimeout
  }

  /** The message of the HTTPError `raise_for_status()` raises. */
  function HttpErrorMessage(status: nat, reason: string, url: string): string {
    NatToString(status) + (if status < 500 then " Client Error: " else " Server Error: ")
    + reason + " for url: " + url
  }

  /** BeautifulSoup(content, 'lxml'), falling back to 'html.parser'. */
  function ParseHtml(web: Web, content: seq<byte>): ParseOutcome {
    match web.lxml(content)
    case Parsed(d) => Parsed(d)
    case ParseFailed(_) => web.htmlParser(content)
  }

  /** The bytes that reach the parser: the body cut at max_content_size. */
  function ParserInput(body: seq<byte>, maxContentSize: int): (content: seq<byte>)
    ensures content <= body
    ensures 0 <= maxContentSize ==> |content| <= maxContentSize
  {
    PyPrefix(body, maxContentSize)
  }

  const TimeoutMessage := "Page took too long to load"
  const FetchFailedPrefix := "Failed to fetch page: "
  const ProcessingFailedPrefix := "Error processing page: "

  /** `fetch_and_clean_content(url, config)` as a value. */
  function FetchAndClean(url: string, cfg: Settings.ScrapingConfig, web: Web): Result<string, string> {
    match web.fetch(FetchRequest(url, RequestHeaders(cfg.userAgent), EffectiveTimeout(cfg.timeout)))
    case TimedOut => Failure(TimeoutMessage)
    case RequestFailed(m) => Failure(FetchFailedPrefix + m)
    case Crashed(m) => Failure(ProcessingFailedPrefix + m)
    case Fetched(status, reason, finalUrl, body) =>
      if 400 <= status < 600 then Failure(FetchFailedPrefix + HttpErrorMessage(status, reason, finalUrl))
      else
        match ParseHtml(web, ParserInput(body, cfg.maxContentSize))
        case ParseFailed(m) => Failure(ProcessingFailedPrefix + m)
        case Parsed(d) =>
          var main := ExtractMainContent(d);
          CheckReadable(Truncate(CleanedText(d, main), cfg.maxTextChars))
  }

  /** What the last two steps guarantee for a collapsed text: a success
      has at least 50 characters besides surrounding whitespace, no newline,
      and, for a non-negative budget, at most max_chars + 3 characters. */
  lemma {:induction false} TruncateAndCheck(c: string, maxChars: int)
    requires '\n' !in c
    ensures var r := CheckReadable(Truncate(c, maxChars));
            && (r.Success? ==> |Strip(r.value)| >= MinReadableChars && '\n' !in r.value)
            && (r.Success? && maxChars >= 0 ==> |r.value| <= maxChars + 3)
  {
    if |c| > maxChars {
      var p := PyPrefix(c, maxChars);
      assert forall i :: 0 <= i < |p| ==> p[i] == c[i];
      assert '\n' !in p;
      assert Truncate(c, maxChars) == p + Ellipsis;
    }
  }

  /** A message built as prefix + detail starts with the prefix. */
  lemma PrefixedMessage(prefix: string, detail: string)
    ensures StartsWith(prefix + detail, prefix)
  {
    assert (prefix + detail)[..|prefix|] == prefix;
  }

  /** What a successful scrape guarantees: at least 50 characters besides
      surrounding whitespace, no newline, and, for a non-negative budget, at
      most max_text_chars + 3 characters. A failure carries one of the
      four messages of the source. */
  lemma {:induction false} FetchAndCleanResult(url: string, cfg: Settings.ScrapingConfig, web: Web)
    ensures var r := FetchAndClean(url, cfg, web);
            && (r.Success? ==> |Strip(r.value)| >= MinReadableChars && '\n' !in r.value)
            && (r.Success? && cfg.maxTextChars >= 0 ==> |r.value| <= cfg.maxTextChars + 3)
            && (r.Failure? ==> || r.error == TimeoutMessage
                               || r.error == NoReadableContent
                               || StartsWith(r.error, FetchFailedPrefix)
                               || StartsWith(r.error, ProcessingFailedPrefix))
  {
    match web.fetch(FetchRequest(url, RequestHeaders(cfg.userAgent), EffectiveTimeout(cfg.timeout)))
    case TimedOut =>
    case RequestFailed(m) =>
      PrefixedMessage(FetchFailedPrefix, m);
    case Crashed(m) =>
      PrefixedMessage(ProcessingFailedPrefix, m);
    case Fetched(status, reason, finalUrl, body) =>
      if 400 <= status < 600 {
        PrefixedMessage(FetchFailedPrefix, HttpErrorMessage(status, reason, finalUrl));
      } else {
        match ParseHtml(web, ParserInput(body, cfg.maxContentSize))
        case ParseFailed(m) =>
          PrefixedMessage(ProcessingFailedPrefix, m);
        case Parsed(d) =>
          TruncateAndCheck(CleanedText(d, ExtractMainContent(d)), cfg.maxTextChars);
      }
  }

  /** The parser never sees more than max_content_size bytes of the body,
      and the fetch never waits longer than 10. */
  lemma FetchBounds(body: seq<byte>, cfg: Settings.ScrapingConfig)
    requires cfg.maxContentSize >= 0
    ensures |ParserInput(body, cfg.maxContentSize)| <= cfg.maxContentSize
    ensures EffectiveTimeout(cfg.timeout) <= MaxFetchTimeout
  {
  }

  /** Cleaning a fully live document leaves exactly the `Pruned` flags. */
  lemma PrunedFlags(d: Document, root: nat, live: seq<bool>)
    requires root < |d.nodes| && |live| == |d.nodes|
    requires forall k :: 0 <= k < |live| ==> live[k] == (AllLive(d)[k] && !Removed(d, root, k))
    ensures live == Pruned(d, root)
  {
  }

  /** The steps of `fetch_and_clean_content` after parsing: choose the
      region, clean it in place, truncate, check the length. */
  method CleanDocument(d: Document, maxChars: int) returns (r: Result<string, string>)
    ensures r == CheckReadable(Truncate(CleanedText(d, ExtractMainContent(d)), maxChars))
  {
    var main := ExtractMainContent(d);
    var soup := new Soup(d);
    var text := soup.FastCleanText(main);
    PrunedFlags(d, main, soup.live);
    assert text == CleanedText(d, main);
    text := Truncate(text, maxChars);
    if |Strip(text)| < MinReadableChars {
      return Failure(NoReadableContent);
    }
    return Success(text);
  }

  /** `fetch_and_clean_content(url, config)`: fetch, cap, parse, choose the
      region, clean it in place, truncate, check. */
  method FetchAndCleanContent(url: string, cfg: Settings.ScrapingConfig, web: Web)
    returns (r: Result<string, string>)
    ensures r == FetchAndClean(url, cfg, web)
  {
    var outcome := web.fetch(FetchRequest(url, RequestHeaders(cfg.userAgent), EffectiveTimeout(cfg.timeout)));
    match outcome {
      case TimedOut => return Failure(TimeoutMessage);
      case RequestFailed(m) => return Failure(FetchFailedPrefix + m);
      case Crashed(m) => return Failure(ProcessingFailedPrefix + m);
      case Fetched(status, reason, finalUrl, body) =>
        if 400 <= status < 600 {
          return Failure(FetchFailedPrefix + HttpErrorMessage(status, reason, finalUrl));
        }
        var content := ParserInput(body, cfg.maxContentSize);
        var parsed := web.lxml(content);
        if parsed.ParseFailed? {
          parsed := web.htmlParser(content);
        }
        match parsed {
          case ParseFailed(m) => return Failure(ProcessingFailedPrefix + m);
          case Parsed(d) =>
            r := CleanDocument(d, cfg.maxTextChars);
        }
    }
  }
}
