/**
 * The descriptor's builder: an object holding one slot per field, whose
 * setters overwrite a slot in place and hand back the same builder, as the
 * generated builder behind `DiscoveryParams.Builder` does. `MergeWith`
 * layers another builder's present fields over this one.
 */
module Builders {
  import opened Wrappers
  import opened DiscoveryParams

  class Builder {
    var backed: Option<int>
    var category: Option<Category>
    var categoryParam: Option<string>
    var location: Option<Location>
    var locationParam: Option<string>
    var page: Option<int>
    var perPage: Option<int>
    var staffPicks: Option<bool>
    var starred: Option<int>
    var social: Option<int>
    var sort: Option<Sort>
    var recommended: Option<bool>
    var similarTo: Option<Project>
    var term: Option<string>

    /**
     * `build()`: a descriptor holding, field by field, what the builder's
     * slots hold now; later setter calls do not reach it.
     */
    function Build(): (p: Params)
      reads this
      ensures p.backed == backed && p.category == category && p.categoryParam == categoryParam
      ensures p.location == location && p.locationParam == locationParam
      ensures p.page == page && p.perPage == perPage && p.staffPicks == staffPicks
      ensures p.starred == starred && p.social == social && p.sort == sort
      ensures p.recommended == recommended && p.similarTo == similarTo && p.term == term
    {
      Params(backed, category, categoryParam, location, locationParam, page, perPage,
             staffPicks, starred, social, sort, recommended, similarTo, term)
    }

    /** A builder with every slot empty. */
    constructor ()
      ensures Build() == Unset
    {
      backed := None;
      category := None;
      categoryParam := None;
      location := None;
      locationParam := None;
      page := None;
      perPage := None;
      staffPicks := None;
      starred := None;
      social := None;
      sort := None;
      recommended := None;
      similarTo := None;
      term := None;
    }

    /** `toBuilder()`: a fresh builder holding the slots of `p`. */
    constructor OfParams(p: Params)
      ensures Build() == p
    {
      backed := p.backed;
      category := p.category;
      categoryParam := p.categoryParam;
      location := p.location;
      locationParam := p.locationParam;
      page := p.page;
      perPage := p.perPage;
      staffPicks := p.staffPicks;
      starred := p.starred;
      social := p.social;
      sort := p.sort;
      recommended := p.recommended;
      similarTo := p.similarTo;
      term := p.term;
    }

    method SetBacked(v: Option<int>) returns (b: Builder)
      modifies this
      ensures b == this
      ensures Build() == old(Build()).(backed := v)
    {
      backed := v;
      b := this;
    }

    method SetCategory(v: Option<Category>) returns (b: Builder)
      modifies this
      ensures b == this
      ensures Build() == old(Build()).(category := v)
    {
      category := v;
      b := this;
    }

    method SetCategoryParam(v: Option<string>) returns (b: Builder)
      modifies this
      ensures b == this
      ensures Build() == old(Build()).(categoryParam := v)
    {
      categoryParam := v;
      b := this;
    }

    method SetLocation(v: Option<Location>) returns (b: Builder)
      modifies this
      ensures b == this
      ensures Build() == old(Build()).(location := v)
    {
      location := v;
      b := this;
    }

    method SetLocationParam(v: Option<string>) returns (b: Builder)
      modifies this
      ensures b == this
      ensures Build() == old(Build()).(locationParam := v)
    {
      locationParam := v;
      b := this;
    }

    method SetPage(v: Option<int>) returns (b: Builder)
      modifies this
      ensures b == this
      ensures Build() == old(Build()).(page := v)
    {
      page := v;
      b := this;
    }

    method SetPerPage(v: Option<int>) returns (b: Builder)
      modifies this
      ensures b == this
      ensures Build() == old(Build()).(perPage := v)
    {
      perPage := v;
      b := this;
    }

    method SetStaffPicks(v: Option<bool>) returns (b: Builder)
      modifies this
      ensures b == this
      ensures Build() == old(Build()).(staffPicks := v)
    {
      staffPicks := v;
      b := this;
    }

    method SetStarred(v: Option<int>) returns (b: Builder)
      modifies this
      ensures b == this
      ensures Build() == old(Build()).(starred := v)
    {
      starred := v;
      b := this;
    }

    method SetSocial(v: Option<int>) returns (b: Builder)
      modifies this
      ensures b == this
      ensures Build() == old(Build()).(social := v)
    {
      social := v;
      b := this;
    }

    method SetSort(v: Option<Sort>) returns (b: Builder)
      modifies this
      ensures b == this
      ensures Build() == old(Build()).(sort := v)
    {
      sort := v;
      b := this;
    }

    method SetRecommended(v: Option<bool>) returns (b: Builder)
      modifies this
      ensures b == this
      ensures Build() == old(Build()).(recommended := v)
    {
      recommended := v;
      b := this;
    }

    method SetSimilarTo(v: Option<Project>) returns (b: Builder)
      modifies this
      ensures b == this
      ensures Build() == old(Build()).(similarTo := v)
    {
      similarTo := v;
      b := this;
    }

    method SetTerm(v: Option<string>) returns (b: Builder)
      modifies this
      ensures b == this
      ensures Build() == old(Build()).(term := v)
    {
      term := v;
      b := this;
    }

    /**
     * `mergeWith`: copies every present slot of `other` over this builder,
     * in the source's order; `locationParam` is not among the copied slots.
     * Each guarded `if (x != null) retVal.x(x)` is written as a setter call
     * with the overlaid value, which leaves the slot as it was when `x` is
     * absent.
     */
    method MergeWith(other: Builder) returns (r: Builder)
      modifies this
      ensures r == this
      ensures Build() == Merge(old(Build()), old(other.Build()))
    {
      var o := other.Build();
      r := this;
      r := r.SetBacked(Overlay(o.backed, r.backed));
      r := r.SetCategory(Overlay(o.category, r.category));
      r := r.SetCategoryParam(Overlay(o.categoryParam, r.categoryParam));
      r := r.SetLocation(Overlay(o.location, r.location));
      r := r.SetPage(Overlay(o.page, r.page));
      r := r.SetPerPage(Overlay(o.perPage, r.perPage));
      r := r.SetSocial(Overlay(o.social, r.social));
      r := r.SetStaffPicks(Overlay(o.staffPicks, r.staffPicks));
      r := r.SetStarred(Overlay(o.starred, r.starred));
      r := r.SetSort(Overlay(o.sort, r.sort));
      r := r.SetRecommended(Overlay(o.recommended, r.recommended));
      r := r.SetSimilarTo(Overlay(o.similarTo, r.similarTo));
      r := r.SetTerm(Overlay(o.term, r.term));
    }
  }

  /** `builder()`: a fresh builder seeded with page 1, 15 per page and the magic sort. */
  method NewBuilder() returns (b: Builder)
    ensures fresh(b)
    ensures b.Build() == Defaults
  {
    b := new Builder();
    b := b.SetPage(Some(1));
    b := b.SetPerPage(Some(15));
    b := b.SetSort(Some(Magic));
  }
}
