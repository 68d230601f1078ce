/** The reader of the `Link` response header Shopify paginates with (section
    3 of RFC 8288). The serverless API and the worker each carry a copy;
    they differ only in whether the `rel` value is trimmed. Matching of the
    `<…>` and `rel="…"` patterns and reading the `page_info` query parameter
    of a URL are given as functions. */
module LinkHeader {
  import opened Wrappers
  import opened Text
  import opened Types

  /** How a part is taken apart: the text between `<` and `>`, the value of
      `rel="…"`, and the `page_info` parameter of a URL. */
  datatype LinkSyntax = LinkSyntax(
    bracketed: string -> Option<string>,
    relValue: string -> Option<string>,
    pageInfo: string -> Option<string>)

  /** The pagination links handed back to the page. */
  datatype PageLinks = PageLinks(next: Option<string>, prev: Option<string>)

  /** The entry one comma-separated part contributes, as (rel, page_info):
      none unless it has two `;` sections, a bracketed URL, a `rel` value
      and a non-empty `page_info`. */
  function PartEntry(part: string, syn: LinkSyntax, trimRel: bool): (e: Option<(string, string)>)
    ensures e.Some? ==> |Split(part, ';')| >= 2 && e.value.1 != []
    ensures |Split(part, ';')| < 2 ==> e.None?
  {
    var section := Split(part, ';');
    if |section| < 2 then None
    else
      var url := syn.bracketed(section[0]);
      if url.None? then None
      else
        var pageInfo := syn.pageInfo(url.value);
        var rel := syn.relValue(section[1]);
        if rel.Some? && Truthy(pageInfo) then
          Some((if trimRel then Trim(rel.value) else rel.value, pageInfo.value))
        else None
  }

  /** The `links` object after every part has been read, in order. */
  function LinksOf(parts: seq<string>, syn: LinkSyntax, trimRel: bool): map<string, string> {
    if parts == [] then map[]
    else
      var links := LinksOf(parts[..|parts| - 1], syn, trimRel);
      var e := PartEntry(parts[|parts| - 1], syn, trimRel);
      if e.Some? then links[e.value.0 := e.value.1] else links
  }

  predicate HasRel(part: string, syn: LinkSyntax, trimRel: bool, rel: string) {
    PartEntry(part, syn, trimRel).Some? && PartEntry(part, syn, trimRel).value.0 == rel
  }

  /** Part `i` gives `rel` and no later part does. */
  predicate LastWith(parts: seq<string>, syn: LinkSyntax, trimRel: bool, rel: string, i: int) {
    0 <= i < |parts| && HasRel(parts[i], syn, trimRel, rel) &&
    forall j :: i < j < |parts| ==> !HasRel(parts[j], syn, trimRel, rel)
  }

  lemma {:induction false} RelPresent(parts: seq<string>, syn: LinkSyntax, trimRel: bool, rel: string)
    ensures rel in LinksOf(parts, syn, trimRel) <==>
      exists i :: 0 <= i < |parts| && HasRel(parts[i], syn, trimRel, rel)
  {
    if parts != [] {
      var init := parts[..|parts| - 1];
      var last := |parts| - 1;
      RelPresent(init, syn, trimRel, rel);
      if !HasRel(parts[last], syn, trimRel, rel) {
        assert rel in LinksOf(parts, syn, trimRel) <==> rel in LinksOf(init, syn, trimRel);
        if exists i :: 0 <= i < |parts| && HasRel(parts[i], syn, trimRel, rel) {
          var i :| 0 <= i < |parts| && HasRel(parts[i], syn, trimRel, rel);
          assert init[i] == parts[i];
        }
        if exists i :: 0 <= i < |init| && HasRel(init[i], syn, trimRel, rel) {
          var i :| 0 <= i < |init| && HasRel(init[i], syn, trimRel, rel);
          assert parts[i] == init[i];
        }
      }
    }
  }

  lemma {:induction false} LastPartValue(parts: seq<string>, syn: LinkSyntax, trimRel: bool, rel: string)
    requires rel in LinksOf(parts, syn, trimRel)
    ensures exists i ::
      LastWith(parts, syn, trimRel, rel, i) &&
      LinksOf(parts, syn, trimRel)[rel] == PartEntry(parts[i], syn, trimRel).value.1
  {
    var init := parts[..|parts| - 1];
    var last := |parts| - 1;
    if HasRel(parts[last], syn, trimRel, rel) {
      assert LastWith(parts, syn, trimRel, rel, last);
    } else {
      assert rel in LinksOf(init, syn, trimRel);
      LastPartValue(init, syn, trimRel, rel);
      var i :| LastWith(init, syn, trimRel, rel, i) &&
        LinksOf(init, syn, trimRel)[rel] == PartEntry(init[i], syn, trimRel).value.1;
      assert init[i] == parts[i];
      forall j | i < j < |parts|
        ensures !HasRel(parts[j], syn, trimRel, rel)
      {
        if j < last {
          assert init[j] == parts[j];
        }
      }
      assert LastWith(parts, syn, trimRel, rel, i);
    }
  }

  /** A rel is present exactly when some part gives it, and its page token
      is the one of the last such part: later parts overwrite earlier ones. */
  lemma {:induction false} LastPartWins(parts: seq<string>, syn: LinkSyntax, trimRel: bool, rel: string)
    ensures rel in LinksOf(parts, syn, trimRel) <==>
      exists i :: 0 <= i < |parts| && HasRel(parts[i], syn, trimRel, rel)
    ensures rel in LinksOf(parts, syn, trimRel) ==>
      exists i ::
        LastWith(parts, syn, trimRel, rel, i) &&
        LinksOf(parts, syn, trimRel)[rel] == PartEntry(parts[i], syn, trimRel).value.1
  {
    RelPresent(parts, syn, trimRel, rel);
    if rel in LinksOf(parts, syn, trimRel) {
      LastPartValue(parts, syn, trimRel, rel);
    }
  }

  function Lookup(links: map<string, string>, rel: string): Option<string> {
    if rel in links then Some(links[rel]) else None
  }

  /** Only the `next` and `previous` relations are handed back, `previous`
      under the name `prev`. */
  function PageLinksOf(links: map<string, string>): (p: PageLinks)
    ensures p.next.Some? <==> "next" in links
    ensures p.prev.Some? <==> "previous" in links
    ensures p.next.Some? ==> p.next.value == links["next"]
    ensures p.prev.Some? ==> p.prev.value == links["previous"]
  {
    PageLinks(Lookup(links, "next"), Lookup(links, "previous"))
  }

  /** The links a header gives: none for a missing or empty header,
      otherwise those of its comma-separated parts. */
  function LinksFor(header: Option<string>, syn: LinkSyntax, trimRel: bool): (p: PageLinks)
    ensures !Truthy(header) ==> p == PageLinks(None, None)
  {
    if !Truthy(header) then PageLinks(None, None)
    else PageLinksOf(LinksOf(Split(header.value, ','), syn, trimRel))
  }

  /** `parseLinkHeader`: the parts are read in order, each accepted part
      setting its relation. */
  method ParseLinkHeader(header: Option<string>, syn: LinkSyntax, trimRel: bool) returns (p: PageLinks)
    ensures !Truthy(header) ==> p == PageLinks(None, None)
    ensures Truthy(header) ==> p == PageLinksOf(LinksOf(Split(header.value, ','), syn, trimRel))
    ensures p == LinksFor(header, syn, trimRel)
  {
    if !Truthy(header) {
      return PageLinks(None, None);
    }
    var parts := Split(header.value, ',');
    var links: map<string, string> := map[];
    for i := 0 to |parts|
      invariant links == LinksOf(parts[..i], syn, trimRel)
    {
      assert parts[..i + 1][..i] == parts[..i];
      var entry := PartEntry(parts[i], syn, trimRel);
      if entry.Some? {
        links := links[entry.value.0 := entry.value.1];
      }
    }
    assert parts[..|parts|] == parts;
    p := PageLinksOf(links);
  }

  /** The two copies agree on every part whose `rel` value has no
      surrounding spaces; a padded `rel="next "` is honoured only by the
      trimming copy. */
  lemma {:induction false} TrimOnlyMattersForPaddedRel(part: string, syn: LinkSyntax)
    ensures (PartEntry(part, syn, true) == PartEntry(part, syn, false)) ||
      (var section := Split(part, ';');
       var rel := syn.relValue(section[1]).value;
       Trim(rel) != rel)
  {
  }

  lemma {:induction false} SinglePart(part: string, syn: LinkSyntax, trimRel: bool)
    ensures var e := PartEntry(part, syn, trimRel);
      LinksOf([part], syn, trimRel) == if e.Some? then map[e.value.0 := e.value.1] else map[]
  {
    assert [part][..0] == [];
  }

  lemma {:induction false} TrimsTrailingSpace()
    ensures Trim("next ") == "next"
  {
    assert TrimStart("next ") == "next ";
    assert TrimEnd("next ") == TrimEnd("next");
    assert TrimEnd("next") == "next";
  }

  lemma {:induction false} PaddedNextOnlyWhenTrimmed(part: string, syn: LinkSyntax)
    requires |Split(part, ';')| >= 2
    requires syn.bracketed(Split(part, ';')[0]).Some?
    requires Truthy(syn.pageInfo(syn.bracketed(Split(part, ';')[0]).value))
    requires syn.relValue(Split(part, ';')[1]) == Some("next ")
    ensures "next" in LinksOf([part], syn, true)
    ensures "next" !in LinksOf([part], syn, false)
  {
    TrimsTrailingSpace();
    SinglePart(part, syn, true);
    SinglePart(part, syn, false);
  }
}
