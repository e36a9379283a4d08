/**
 * The breadcrumb bar: the URL pathname is cut into its non-empty segments,
 * and each segment becomes a crumb linking to the path up to and including
 * it, except the last one, which is the current page.
 */
module Breadcrumb {
  import opened Wrappers

  /** String.prototype.split("/"): the pieces between slashes, empty ones included; "" splits to [""]. */
  function Split(s: string): (r: seq<string>)
    ensures |r| >= 1
    ensures forall i :: 0 <= i < |r| ==> '/' !in r[i]
  {
    if s == [] then [""]
    else
      var rest := Split(s[1..]);
      if s[0] == '/' then [""] + rest
      else [[s[0]] + rest[0]] + rest[1..]
  }

  /** Array.prototype.join("/"). */
  function Join(parts: seq<string>): string
  {
    if |parts| == 0 then ""
    else if |parts| == 1 then parts[0]
    else parts[0] + "/" + Join(parts[1..])
  }

  /** .filter((path) => path): drops the empty strings, keeps the order. */
  function NonEmpty(parts: seq<string>): (r: seq<string>)
    ensures forall i :: 0 <= i < |r| ==> r[i] != "" && r[i] in parts
    ensures multiset(r) == multiset(parts)["" := 0]
  {
    if |parts| == 0 then []
    else
      assert parts == [parts[0]] + parts[1..];
      if parts[0] == "" then NonEmpty(parts[1..])
      else [parts[0]] + NonEmpty(parts[1..])
  }

  /** The non-empty '/'-separated segments of a pathname, in order. */
  function Parts(pathname: string): (r: seq<string>)
    ensures forall i :: 0 <= i < |r| ==> r[i] != "" && '/' !in r[i]
  {
    NonEmpty(Split(pathname))
  }

  /** Splitting loses nothing: joining the pieces gives the pathname back. */
  lemma {:induction false} JoinSplit(s: string)
    ensures Join(Split(s)) == s
  {
    if s != [] {
      JoinSplit(s[1..]);
      var rest := Split(s[1..]);
      if s[0] == '/' {
        assert s == "/" + s[1..];
      } else {
        var r := Split(s);
        assert r[1..] == rest[1..];
        if |rest| > 1 {
          assert Join(rest) == rest[0] + "/" + Join(rest[1..]);
        }
        assert s == [s[0]] + s[1..];
      }
    }
  }

  lemma {:induction false} SplitWord(w: string)
    requires '/' !in w
    ensures Split(w) == [w]
  {
    if w != [] {
      SplitWord(w[1..]);
      assert w[0] != '/';
      assert [w[0]] + w[1..] == w;
    }
  }

  lemma {:induction false} SplitAfterWord(w: string, rest: string)
    requires '/' !in w
    ensures Split(w + "/" + rest) == [w] + Split(rest)
  {
    if w == [] {
      assert w + "/" + rest == "/" + rest;
    } else {
      SplitAfterWord(w[1..], rest);
      var s := w + "/" + rest;
      assert s[0] == w[0] && w[0] != '/';
      assert s[1..] == w[1..] + "/" + rest;
      assert Split(s[1..]) == [w[1..]] + Split(rest);
      assert [w[0]] + w[1..] == w;
    }
  }

  lemma {:induction false} SplitJoin(parts: seq<string>)
    requires |parts| >= 1
    requires forall i :: 0 <= i < |parts| ==> '/' !in parts[i]
    ensures Split(Join(parts)) == parts
  {
    if |parts| == 1 {
      SplitWord(parts[0]);
    } else {
      SplitJoin(parts[1..]);
      SplitAfterWord(parts[0], Join(parts[1..]));
    }
  }

  lemma {:induction false} NonEmptyKeeps(parts: seq<string>)
    requires forall i :: 0 <= i < |parts| ==> parts[i] != ""
    ensures NonEmpty(parts) == parts
  {
    if |parts| > 0 {
      NonEmptyKeeps(parts[1..]);
    }
  }

  /** Filtering a concatenation filters each half: the order of the kept pieces is their order in the input. */
  lemma {:induction false} NonEmptyAppend(a: seq<string>, b: seq<string>)
    ensures NonEmpty(a + b) == NonEmpty(a) + NonEmpty(b)
  {
    if |a| > 0 {
      NonEmptyAppend(a[1..], b);
      assert (a + b)[1..] == a[1..] + b;
    } else {
      assert a + b == b;
    }
  }

  /** A single piece is kept exactly when it is non-empty. */
  lemma NonEmptyOne(p: string)
    ensures NonEmpty([p]) == if p == "" then [] else [p]
  {
    assert [p][1..] == [];
  }

  /**
   * For any pathname, cut into '/'-free pieces in any way that joins back
   * to it, the parts are those pieces with the empty ones dropped.
   */
  lemma PartsOfPieces(pieces: seq<string>)
    requires |pieces| >= 1
    requires forall i :: 0 <= i < |pieces| ==> '/' !in pieces[i]
    ensures Parts(Join(pieces)) == NonEmpty(pieces)
  {
    SplitJoin(pieces);
  }

  /** A pathname without '/' is one part, or none when it is empty. */
  lemma PartsOfWord(w: string)
    requires '/' !in w
    ensures Parts(w) == if w == "" then [] else [w]
  {
    SplitWord(w);
    NonEmptyOne(w);
  }

  /**
   * Reading a pathname up to its first '/': the word before it is a part
   * when non-empty, and the parts of the rest follow it in order.
   */
  lemma PartsAfterWord(w: string, rest: string)
    requires '/' !in w
    ensures Parts(w + "/" + rest) == (if w == "" then [] else [w]) + Parts(rest)
  {
    SplitAfterWord(w, rest);
    NonEmptyAppend([w], Split(rest));
    NonEmptyOne(w);
  }

  /** A pathname made of "/" and segments has exactly those segments as its parts. */
  lemma PartsOfPath(segments: seq<string>)
    requires forall i :: 0 <= i < |segments| ==> segments[i] != "" && '/' !in segments[i]
    ensures Parts("/" + Join(segments)) == segments
  {
    var path := "/" + Join(segments);
    SplitAfterWord("", Join(segments));
    assert "" + "/" + Join(segments) == path;
    assert Split(path) == [""] + Split(Join(segments));
    if |segments| == 0 {
      assert Split("") == [""];
      assert NonEmpty(Split(path)) == NonEmpty([""]);
    } else {
      SplitJoin(segments);
      NonEmptyKeeps(segments);
      assert Split(path)[1..] == segments;
    }
  }

  /** The uuid package's validate(), which the model takes as given. */
  type UuidCheck = string -> bool

  /** toUpperCase on one character, for the ASCII letters. */
  function ToUpper(c: char): char
  {
    if 'a' <= c <= 'z' then (c as int - 32) as char else c
  }

  /** capitalize: UUIDs are kept as they are; anything else gets its first character upper-cased. */
  function Capitalize(s: string, isUuid: UuidCheck): (r: string)
    ensures isUuid(s) ==> r == s
    ensures !isUuid(s) ==> |r| == |s| && (s != [] ==> r[0] == ToUpper(s[0]) && r[1..] == s[1..])
  {
    if isUuid(s) then s
    else if s == [] then []
    else [ToUpper(s[0])] + s[1..]
  }

  /** The link of the crumb for parts[idx]: "/" followed by the first idx + 1 parts. */
  function Href(parts: seq<string>, idx: nat): (r: string)
    requires idx < |parts|
    ensures |r| > |parts[idx]| && r[0] == '/'
    ensures r[|r| - |parts[idx]|..] == parts[idx]
  {
    JoinEndsWithLast(parts[..idx + 1]);
    "/" + Join(parts[..idx + 1])
  }

  /** /snapshots is served at /, so a link to it goes to / instead. */
  function HrefOk(href: string): (r: string)
    ensures r != "/snapshots"
    ensures href != "/snapshots" ==> r == href
  {
    if href == "/snapshots" then "/" else href
  }

  /** One item of the bar: its text and, unless it is the current page, its link. */
  datatype Crumb = Crumb(text: string, link: Option<string>)

  /** The rendered breadcrumb items for a pathname. */
  function Crumbs(pathname: string, isUuid: UuidCheck): (r: seq<Crumb>)
    ensures |r| == if Parts(pathname) == [] then 1 else |Parts(pathname)|
    ensures r[|r| - 1].link.None? <==> Parts(pathname) != []
    ensures forall i :: 0 <= i < |r| - 1 ==> r[i].link.Some?
    ensures forall i :: 0 <= i < |r| && r[i].link.Some? ==> r[i].link.value != "/snapshots"
  {
    var parts := Parts(pathname);
    if |parts| == 0 then
      [Crumb("> Snapshots", Some("/"))]
    else
      seq(|parts|, idx requires 0 <= idx < |parts| =>
        if idx == |parts| - 1 then Crumb(Capitalize(parts[idx], isUuid), None)
        else Crumb("> " + Capitalize(parts[idx], isUuid), Some(HrefOk(Href(parts, idx)))))
  }

  /** A join ends with its last piece. */
  lemma {:induction false} JoinEndsWithLast(parts: seq<string>)
    requires |parts| >= 1
    ensures var j, last := Join(parts), parts[|parts| - 1]; |j| >= |last| && j[|j| - |last|..] == last
  {
    if |parts| > 1 {
      JoinEndsWithLast(parts[1..]);
    }
  }

  lemma {:induction false} JoinSnoc(parts: seq<string>, last: string)
    requires |parts| >= 1
    ensures Join(parts + [last]) == Join(parts) + "/" + last
  {
    if |parts| > 1 {
      JoinSnoc(parts[1..], last);
      assert (parts + [last])[1..] == parts[1..] + [last];
    }
  }

  /** Each link extends the previous one by "/" and the next segment, so each is a prefix of the next. */
  lemma HrefExtends(parts: seq<string>, idx: nat)
    requires idx + 1 < |parts|
    ensures Href(parts, idx + 1) == Href(parts, idx) + "/" + parts[idx + 1]
    ensures Href(parts, idx) < Href(parts, idx + 1)
  {
    assert parts[..idx + 2] == parts[..idx + 1] + [parts[idx + 1]];
    JoinSnoc(parts[..idx + 1], parts[idx + 1]);
  }

  /** With no segment there is a single crumb, a link to /. */
  lemma CrumbsOfRoot(pathname: string, isUuid: UuidCheck)
    requires Parts(pathname) == []
    ensures Crumbs(pathname, isUuid) == [Crumb("> Snapshots", Some("/"))]
  {
  }

  /**
   * Otherwise there is one crumb per segment; only the last is unlinked,
   * and every other one links to its prefix of the path (the first one
   * to / when that prefix is /snapshots).
   */
  lemma CrumbsOfSegments(pathname: string, isUuid: UuidCheck, idx: nat)
    requires idx < |Parts(pathname)|
    ensures var parts, crumbs := Parts(pathname), Crumbs(pathname, isUuid);
      && |crumbs| == |parts|
      && crumbs[idx].text == (if idx == |parts| - 1 then "" else "> ") + Capitalize(parts[idx], isUuid)
      && (crumbs[idx].link.None? <==> idx == |parts| - 1)
      && (idx < |parts| - 1 ==> crumbs[idx].link == Some(HrefOk(Href(parts, idx))))
      && (0 < idx < |parts| - 1 ==> crumbs[idx].link == Some(Href(parts, idx)))
  {
    var parts := Parts(pathname);
    if 0 < idx {
      HrefHasTwoSlashes(parts, idx);
    }
  }

  lemma HrefHasTwoSlashes(parts: seq<string>, idx: nat)
    requires 0 < idx < |parts|
    requires forall i :: 0 <= i < |parts| ==> parts[i] != ""
    ensures Href(parts, idx) != "/snapshots"
  {
    var h := Href(parts, idx);
    var p := parts[..idx + 1];
    assert Join(p) == p[0] + "/" + Join(p[1..]);
    assert h[1 + |p[0]|] == '/';
  }

  /** Each link is the pathname cut right after its segment. */
  lemma {:induction false} HrefIsPathPrefix(segments: seq<string>, idx: nat)
    requires idx < |segments|
    ensures var p, h := "/" + Join(segments), Href(segments, idx);
      h <= p && (|h| == |p| || p[|h|] == '/')
  {
    if idx < |segments| - 1 {
      HrefIsPathPrefix(segments[..|segments| - 1], idx);
      var front := segments[..|segments| - 1];
      assert segments == front + [segments[|segments| - 1]];
      JoinSnoc(front, segments[|segments| - 1]);
      assert front[..idx + 1] == segments[..idx + 1];
    } else {
      assert segments[..idx + 1] == segments;
    }
  }
}
