/** The application header (src/components/layout/app-header.tsx): the breadcrumb trail derived
    from the current path, and the mobile menu's highlighted entry. */
module AppHeader {
  import opened Text
  import opened Lists

  /** One breadcrumb: where it links, what it shows, and whether it is the current page. */
  datatype Crumb = Crumb(href: string, text: string, isLast: bool)

  /** `filter(Boolean)` on strings keeps the non-empty ones. */
  function NonEmpty(s: string): bool
  {
    s != ""
  }

  /** `pathname.split('/').filter(Boolean)`: the path's parts between slashes, without empty ones. */
  function Segments(path: string): (r: seq<string>)
    ensures forall k :: 0 <= k < |r| ==> r[k] != "" && '/' !in r[k]
  {
    var parts := Split(path, '/');
    var kept := Filter(parts, NonEmpty);
    FilterMembers(parts, NonEmpty);
    assert forall k :: 0 <= k < |kept| ==> kept[k] in parts;
    kept
  }

  /** The link of the crumb for segment `i`: a slash and the first `i + 1` segments joined by slashes. */
  function Href(segs: seq<string>, i: nat): (r: string)
    requires i < |segs|
    ensures |r| > |segs[i]| && r[0] == '/'
    ensures r[|r| - |segs[i]|..] == segs[i]
  {
    if i > 0 then
      assert segs[..i + 1] == segs[..i] + [segs[i]];
      JoinAppend(segs[..i], [segs[i]], "/");
      "/" + Join(segs[..i + 1], "/")
    else
      "/" + Join(segs[..i + 1], "/")
  }

  /** The segment with its first character upper-cased and the rest left alone. */
  function Label(segment: string): (r: string)
    ensures |r| == |segment|
    ensures segment == "" ==> r == ""
    ensures segment != "" ==> r[0] == UpperChar(segment[0]) && r[1..] == segment[1..]
  {
    if segment == "" then "" else [UpperChar(segment[0])] + segment[1..]
  }

  /** `breadcrumbItems`: one crumb per segment, in the path's order. */
  function Breadcrumbs(path: string): (r: seq<Crumb>)
    ensures |r| == |Segments(path)|
    ensures forall i :: 0 <= i < |r| ==> r[i].href != "" && r[i].href[0] == '/'
  {
    Trail(Segments(path))
  }

  function Trail(segs: seq<string>): seq<Crumb>
  {
    seq(|segs|, i requires 0 <= i < |segs| => Crumb(Href(segs, i), Label(segs[i]), i == |segs| - 1))
  }

  // ---------------------------------------------------------------------------------------------
  // Properties of the trail

  /** Each crumb shows its segment's label, which differs from the segment at most in the case of
      its first letter, and exactly the final crumb is marked as the current page. */
  lemma CrumbPerSegment(path: string)
    ensures var segs := Segments(path);
            var crumbs := Breadcrumbs(path);
            && |crumbs| == |segs|
            && (forall i :: 0 <= i < |crumbs| ==> crumbs[i].text == Label(segs[i]))
            && (forall i :: 0 <= i < |crumbs| ==> Lower(crumbs[i].text) == Lower(segs[i]))
            && (forall i :: 0 <= i < |crumbs| ==> (crumbs[i].isLast <==> i == |crumbs| - 1))
  {
    var segs := Segments(path);
    forall i | 0 <= i < |segs| ensures Lower(Label(segs[i])) == Lower(segs[i]) {
      LabelFoldsTo(segs[i]);
    }
  }

  /** Labelling an already labelled segment changes nothing: only the first character is touched,
      and it is upper-cased once and for all. */
  lemma LabelIdempotent(segment: string)
    ensures Label(Label(segment)) == Label(segment)
  {
    if segment != "" {
      var c := segment[0];
      assert UpperChar(UpperChar(c)) == UpperChar(c);
      assert Label(segment)[1..] == segment[1..];
    }
  }

  lemma LabelFoldsTo(segment: string)
    ensures Lower(Label(segment)) == Lower(segment)
  {
    if segment != "" {
      var c := segment[0];
      assert LowerChar(UpperChar(c)) == LowerChar(c);
      assert Label(segment)[0] == UpperChar(c);
      forall k | 1 <= k < |segment| ensures Label(segment)[k] == segment[k] {
      }
    }
  }

  /** The root page, and the empty path, have no crumbs besides the fixed Home link. */
  lemma RootHasNoCrumbs()
    ensures Breadcrumbs("/") == [] && Breadcrumbs("") == []
  {
    assert Split("/", '/') == ["", ""];
    assert Split("", '/') == [""];
  }

  /** Each crumb's link, followed by a slash, begins every later crumb's link; so the links grow
      strictly along the trail and no two are equal. */
  lemma HrefsNested(path: string, i: nat, j: nat)
    requires i < j < |Breadcrumbs(path)|
    ensures StartsWith(Breadcrumbs(path)[j].href, Breadcrumbs(path)[i].href + "/")
    ensures |Breadcrumbs(path)[i].href| < |Breadcrumbs(path)[j].href|
    ensures Breadcrumbs(path)[i].href != Breadcrumbs(path)[j].href
  {
    var segs := Segments(path);
    var first, rest := segs[..i + 1], segs[i + 1..j + 1];
    assert segs[..j + 1] == first + rest;
    JoinAppend(first, rest, "/");
    var hi := Href(segs, i);
    assert Href(segs, j) == hi + "/" + Join(rest, "/");
    StartsWithConcat(hi + "/", Join(rest, "/"));
  }

  /** Following a crumb's link leads to a page whose segments are the first segments of this one. */
  lemma HrefSegments(path: string, i: nat)
    requires i < |Breadcrumbs(path)|
    ensures Segments(Breadcrumbs(path)[i].href) == Segments(path)[..i + 1]
  {
    var segs := Segments(path);
    assert Breadcrumbs(path)[i].href == "/" + Join(segs[..i + 1], "/");
    SegmentsOfLink(segs[..i + 1]);
  }

  /** A link built from non-empty, slash-free parts splits back into those parts. */
  lemma SegmentsOfLink(parts: seq<string>)
    requires parts != []
    requires forall k :: 0 <= k < |parts| ==> parts[k] != "" && '/' !in parts[k]
    ensures Segments("/" + Join(parts, "/")) == parts
  {
    var joined := Join(parts, "/");
    SplitJoin(parts, '/');
    assert ("/" + joined)[0] == '/' && ("/" + joined)[1..] == joined;
    assert Split("/" + joined, '/') == [""] + parts;
    FilterKeepsAll(parts, NonEmpty);
    assert ([""] + parts)[1..] == parts;
  }

  /** Deriving the trail again from the last crumb's link gives the same trail, so repeated or
      trailing slashes in a path make no difference to it. */
  lemma TrailIdempotent(path: string)
    requires Breadcrumbs(path) != []
    ensures Breadcrumbs(Breadcrumbs(path)[|Breadcrumbs(path)| - 1].href) == Breadcrumbs(path)
  {
    var segs := Segments(path);
    var last := Breadcrumbs(path)[|segs| - 1].href;
    HrefSegments(path, |segs| - 1);
    assert segs[..|segs|] == segs;
    assert Segments(last) == segs;
  }

  // ---------------------------------------------------------------------------------------------
  // The mobile menu

  /** The six entries' links, in menu order. */
  const MenuHrefs: seq<string> :=
    ["/dashboard", "/machines", "/predictions", "/reminders", "/history", "/settings"]

  /** An entry is highlighted when the path equals its link exactly. */
  predicate IsActive(path: string, href: string)
  {
    path == href
  }

  /** At most one entry is highlighted, since the links differ. */
  lemma AtMostOneActive(path: string, i: nat, j: nat)
    requires i < |MenuHrefs| && j < |MenuHrefs|
    requires IsActive(path, MenuHrefs[i]) && IsActive(path, MenuHrefs[j])
    ensures i == j
  {
  }

  /** A page below a menu entry, such as "/machines/add", highlights no entry. */
  lemma NestedPathActivatesNothing(top: string, rest: string, i: nat)
    requires i < |MenuHrefs|
    ensures !IsActive("/" + top + "/" + rest, MenuHrefs[i])
  {
    var path := "/" + top + "/" + rest;
    assert path[|top| + 1] == '/';
    forall k | 0 < k < |MenuHrefs[i]| ensures MenuHrefs[i][k] != '/' {
    }
  }
}
