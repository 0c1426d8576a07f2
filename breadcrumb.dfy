/** The breadcrumb trail: the pathname's non-empty segments, each with a
    cumulative href and a title-cased label, after a leading "Home" crumb;
    nothing is rendered on the home page, and elsewhere a BreadcrumbList
    schema accompanies the trail. */
module Breadcrumb {
  import opened JsValues
  import opened Seqs
  import opened Text
  import JsonLd

  /** A breadcrumb item; `title` is the item's `label`. */
  datatype Crumb = Crumb(title: string, href: string)

  const Origin := "https://adsensecalculator.online"

  /** `pathname.split("/").filter(Boolean)`. */
  function Segments(pathname: string): (segs: seq<string>)
    ensures forall k :: 0 <= k < |segs| ==> segs[k] != "" && '/' !in segs[k]
  {
    Filter(Split(pathname, '/'), (p: string) => p != "")
  }

  /** The words of a segment with their first letters upper-cased. */
  function CapitalizedWords(segment: string): (words: seq<string>)
    ensures |words| == |Split(segment, '-')|
  {
    var parts := Split(segment, '-');
    seq(|parts|, k requires 0 <= k < |parts| => Capitalize(parts[k]))
  }

  /** `path.split("-").map(capitalize).join(" ")`. */
  function Label(segment: string): string {
    Join(CapitalizedWords(segment), ' ')
  }

  /** Upper-casing a first letter never produces a space. */
  lemma CapitalizeKeepsSpaceFree(word: string)
    requires ' ' !in word
    ensures ' ' !in Capitalize(word)
  {
    if word != [] {
      assert Capitalize(word) == [UpperChar(word[0])] + word[1..];
      assert ' ' !in word[1..];
    }
  }

  /** Splitting a label at its spaces gives back the capitalized words: for a
      segment without spaces, the label is exactly the words joined by
      single spaces, one word per dash-separated part. */
  lemma LabelWords(segment: string)
    requires ' ' !in segment
    ensures Split(Label(segment), ' ') == CapitalizedWords(segment)
  {
    var parts := Split(segment, '-');
    var words := CapitalizedWords(segment);
    forall k | 0 <= k < |words| ensures ' ' !in words[k] {
      assert ' ' !in parts[k] by {
        JoinSplit(segment, '-');
        JoinedPartsInside(parts, '-', k, ' ');
      }
      CapitalizeKeepsSpaceFree(parts[k]);
    }
    SplitJoin(words, ' ');
  }

  /** A character absent from a joined string is absent from every part. */
  lemma {:induction false} JoinedPartsInside(parts: seq<string>, sep: char, k: nat, c: char)
    requires k < |parts| && c != sep && c !in Join(parts, sep)
    ensures c !in parts[k]
  {
    if |parts| > 1 {
      assert Join(parts, sep) == parts[0] + [sep] + Join(parts[1..], sep);
      if k > 0 {
        JoinedPartsInside(parts[1..], sep, k - 1, c);
      }
    }
  }

  /** A segment without dashes is labelled by capitalizing it. */
  lemma LabelOfOneWord(segment: string)
    requires '-' !in segment
    ensures Label(segment) == Capitalize(segment)
  {
    SplitOfSeparatorFree(segment, '-');
  }

  /** The cumulative href of a list of segments: "/" before each one. */
  function Path(segs: seq<string>): string {
    if segs == [] then "" else "/" + segs[0] + Path(segs[1..])
  }

  lemma {:induction false} PathAppend(segs: seq<string>, s: string)
    ensures Path(segs + [s]) == Path(segs) + "/" + s
  {
    if segs == [] {
      assert Path([s]) == "/" + s + Path([]);
    } else {
      assert (segs + [s])[1..] == segs[1..] + [s];
      PathAppend(segs[1..], s);
    }
  }

  /** Each prefix's path extends the previous prefix's path by "/" and one
      segment, so each crumb's href extends the previous crumb's. */
  lemma PathPrefixes(segs: seq<string>)
    ensures forall k :: 1 <= k <= |segs| ==> Path(segs[..k]) == Path(segs[..k - 1]) + "/" + segs[k - 1]
  {
    forall k | 1 <= k <= |segs| ensures Path(segs[..k]) == Path(segs[..k - 1]) + "/" + segs[k - 1] {
      assert segs[..k] == segs[..k - 1] + [segs[k - 1]];
      PathAppend(segs[..k - 1], segs[k - 1]);
    }
  }

  /** A non-empty path is its segments joined by "/" after an empty first
      part. */
  lemma {:induction false} PathIsJoin(segs: seq<string>)
    requires segs != []
    ensures Path(segs) == Join([""] + segs, '/')
  {
    if |segs| == 1 {
      assert Path(segs) == "/" + segs[0];
    } else {
      PathIsJoin(segs[1..]);
      assert ([""] + segs)[1..] == segs;
      assert ([""] + segs[1..])[1..] == segs[1..];
      assert Join(segs, '/') == segs[0] + "/" + Join(segs[1..], '/');
    }
  }

  /** The href of the last crumb is a canonical pathname: its segments are
      exactly the segments it was built from. */
  lemma SegmentsOfPath(segs: seq<string>)
    requires forall k :: 0 <= k < |segs| ==> segs[k] != "" && '/' !in segs[k]
    ensures Segments(Path(segs)) == segs
  {
    var keep := (p: string) => p != "";
    if segs == [] {
      assert Split("", '/') == [""];
    } else {
      PathIsJoin(segs);
      var parts := [""] + segs;
      SplitJoin(parts, '/');
      assert parts[1..] == segs;
      assert Filter(parts, keep) == Filter(parts[1..], keep);
      FilterKeepsAll(segs, keep);
    }
  }

  /** `generateBreadcrumbs`: "Home" first, then one crumb per non-empty
      segment, whose href extends the previous crumb's href (the empty path
      for the first) by "/" and the segment, labelled by title-casing the
      segment. */
  method GenerateBreadcrumbs(pathname: string) returns (crumbs: seq<Crumb>)
    ensures |crumbs| == 1 + |Segments(pathname)|
    ensures crumbs[0] == Crumb("Home", "/")
    ensures forall k :: 1 <= k < |crumbs| ==>
      crumbs[k] == Crumb(Label(Segments(pathname)[k - 1]), Path(Segments(pathname)[..k]))
  {
    var paths := Segments(pathname);
    PathPrefixes(paths);
    crumbs := [Crumb("Home", "/")];
    var currentPath := "";
    var i := 0;
    while i < |paths|
      invariant 0 <= i <= |paths|
      invariant |crumbs| == 1 + i
      invariant crumbs[0] == Crumb("Home", "/")
      invariant currentPath == Path(paths[..i])
      invariant forall k :: 1 <= k < |crumbs| ==> crumbs[k] == Crumb(Label(paths[k - 1]), Path(paths[..k]))
    {
      currentPath := currentPath + "/" + paths[i];
      var crumb := Crumb(Label(paths[i]), currentPath);
      assert crumb == Crumb(Label(paths[i]), Path(paths[..i + 1]));
      crumbs := crumbs + [crumb];
      i := i + 1;
    }
  }

  /** Feeding the last crumb's href back in gives the same trail: the path
      reached is canonical, with the empty segments of the original gone. */
  lemma LastHrefIsCanonical(pathname: string)
    requires Segments(pathname) != []
    ensures Segments(Path(Segments(pathname))) == Segments(pathname)
  {
    SegmentsOfPath(Segments(pathname));
  }

  /** The schema.org list: crumb labels as names and the site origin
      prefixed to each href. */
  function Schema(crumbs: seq<Crumb>): JsonLd.Json {
    JsonLd.BreadcrumbSchema(seq(|crumbs|, k requires 0 <= k < |crumbs| =>
      JsonLd.Link(crumbs[k].title, Origin + crumbs[k].href)))
  }

  /** The schema numbers the crumbs 1..n in order, each named by its label
      and pointing at the origin followed by its href. */
  lemma SchemaListsCrumbs(crumbs: seq<Crumb>)
    ensures var elems := JsonLd.Elements(Schema(crumbs), "itemListElement");
      |elems| == |crumbs| && JsonLd.NumberedFromOne(elems)
    ensures var links := JsonLd.ReadBreadcrumbList(Schema(crumbs));
      && links.Some? && |links.value| == |crumbs|
      && forall k :: 0 <= k < |crumbs| ==>
        links.value[k] == JsonLd.Link(crumbs[k].title, Origin + crumbs[k].href)
  {
    JsonLd.BreadcrumbRoundTrip(seq(|crumbs|, k requires 0 <= k < |crumbs| =>
      JsonLd.Link(crumbs[k].title, Origin + crumbs[k].href)));
  }

  datatype Rendered = Rendered(crumbs: seq<Crumb>, schema: JsonLd.Json)

  /** The component: nothing on "/", otherwise the trail and its schema. */
  method Render(pathname: string) returns (r: Option<Rendered>)
    ensures r.None? <==> pathname == "/"
    ensures r.Some? ==> |r.value.crumbs| == 1 + |Segments(pathname)|
    ensures r.Some? ==> r.value.crumbs[0] == Crumb("Home", "/")
    ensures r.Some? ==> forall k :: 1 <= k < |r.value.crumbs| ==>
      r.value.crumbs[k] == Crumb(Label(Segments(pathname)[k - 1]), Path(Segments(pathname)[..k]))
    ensures r.Some? ==> r.value.schema == Schema(r.value.crumbs)
  {
    var crumbs := GenerateBreadcrumbs(pathname);
    if pathname == "/" {
      return None;
    }
    r := Some(Rendered(crumbs, Schema(crumbs)));
  }
}
