/** The catalog controller's own actions: brand selection on `index` and `show`,
    and the enrichment `show` applies to a fetched record. */
module Catalog {
  import opened Wrappers
  import opened RubyString
  import opened Branding
  import opened Holdings

  /** A value of a Solr document field: a string, a list of strings, or a boolean. */
  datatype FieldValue = Text(s: string) | Texts(items: seq<string>) | Flag(b: bool)

  /** A fetched record: field name to value; a missing field reads as `nil`. */
  type Document = map<string, FieldValue>

  const TitleField: string := "title_display"
  const FullTextField: string := "url_fulltext_display"
  const SubjectField: string := "subject_t"
  const AuthorsField: string := "author_addl_t"
  const Placeholder: string := "Untitled document"

  /** Ruby truthiness of `@document[key]`: only `nil` and `false` are falsy,
      so an empty string or an empty list counts as present. */
  predicate Present(doc: Document, key: string) {
    key in doc && doc[key] != Flag(false)
  }

  /** The title fallback: a record whose title is missing or `false` gets the placeholder
      title; any other title, the empty string included, is kept. */
  function WithTitle(doc: Document): (r: Document)
    ensures Present(r, TitleField)
    ensures Present(doc, TitleField) ==> r == doc
    ensures !Present(doc, TitleField) ==> r[TitleField] == Text(Placeholder)
    ensures r.Keys == doc.Keys + {TitleField}
    ensures forall k :: k in doc && k != TitleField ==> r[k] == doc[k]
  {
    if Present(doc, TitleField) then doc else doc[TitleField := Text(Placeholder)]
  }

  /** Applying the title fallback a second time changes nothing. */
  lemma WithTitleIdempotent(doc: Document)
    ensures WithTitle(WithTitle(doc)) == WithTitle(doc)
  {
  }

  /** Why `show` stopped early: each case is an exception the Ruby code raises. */
  datatype ShowError =
    | BadBrand(cause: BrandError)   // `nil['name']` for a brand missing from the table
    | LocationMissing               // `nil.downcase` in the sort block
    | SubjectsNotArray              // `each` on a `subject_t` that is not an array

  /** The instance variables `show` assigns. A fresh controller serves each request. */
  class CatalogController {
    var document: Document
    var holdings: Option<array<Holding>>
    var holdable: Option<bool>
    var bookable: Option<bool>
    var urls: Option<seq<string>>
    var subjects: Option<seq<seq<string>>>
    var additionalAuthors: Option<FieldValue>

    constructor ()
      ensures document == map[] && holdings == None
      ensures holdable == None && bookable == None
      ensures urls == None && subjects == None && additionalAuthors == None
    {
      document := map[];
      holdings := None;
      holdable, bookable := None, None;
      urls, subjects, additionalAuthors := None, None, None;
    }

    /** `index`: the search results page only selects the brand. */
    method Index(params: map<string, string>, libraries: map<string, Library>) returns (r: Result<Brand, BrandError>)
      ensures r.Success? <==> SelectBrand(params) in libraries
      ensures r.Success? ==> r.value.id == SelectBrand(params)
      ensures r == ResolveBrand(params, libraries)
    {
      r := ResolveBrand(params, libraries);
    }

    /** `show`: `doc` is the record the framework fetched, `fetched` the result of
        `holdings(@document, :items)`, and `links` that of `holdings(@document, :links)`. */
    method Show(params: map<string, string>, libraries: map<string, Library>, doc: Document,
                fetched: Option<array<Holding>>, links: seq<string>)
      returns (r: Result<Brand, ShowError>)
      modifies this, if fetched.Some? then {fetched.value} else {}
      // an unknown brand stops the action before the holdings are read
      ensures ResolveBrand(params, libraries).Failure? ==>
        && r == Failure(BadBrand(ResolveBrand(params, libraries).error))
        && document == doc && holdings == old(holdings)
        && holdable == old(holdable) && bookable == old(bookable)
        && urls == old(urls) && subjects == old(subjects) && additionalAuthors == old(additionalAuthors)
        && (fetched.Some? ==> fetched.value[..] == old(fetched.value[..]))
      ensures ResolveBrand(params, libraries).Success? ==> holdings == fetched
      // the flags come from the first entry as fetched, before sorting
      ensures ResolveBrand(params, libraries).Success? && fetched.Some? && fetched.value.Length > 0 ==>
        holdable == old(fetched.value[0]).holdable && bookable == old(fetched.value[0]).bookable
      ensures ResolveBrand(params, libraries).Success? && !(fetched.Some? && fetched.value.Length > 0) ==>
        holdable == old(holdable) && bookable == old(bookable)
      // an entry without a location among two or more stops the action in the sort
      ensures ResolveBrand(params, libraries).Success? && fetched.Some? && SortRaises(old(fetched.value[..])) ==>
        && r == Failure(LocationMissing) && document == doc
        && urls == old(urls) && subjects == old(subjects) && additionalAuthors == old(additionalAuthors)
      ensures ResolveBrand(params, libraries).Success? && !(fetched.Some? && SortRaises(old(fetched.value[..]))) ==>
        && (fetched.Some? ==> Descending(fetched.value[..]) && multiset(fetched.value[..]) == multiset(old(fetched.value[..])))
        && document == WithTitle(doc)
        && urls == (if Present(doc, FullTextField) then Some(links) else old(urls))
        && (!Present(doc, SubjectField) ==> subjects == old(subjects))
        && (Present(doc, SubjectField) && !doc[SubjectField].Texts? ==>
              subjects == Some([]) && r == Failure(SubjectsNotArray) && additionalAuthors == old(additionalAuthors))
        && (Present(doc, SubjectField) && doc[SubjectField].Texts? ==>
              && subjects.Some? && |subjects.value| == |doc[SubjectField].items|
              && forall i :: 0 <= i < |subjects.value| ==> subjects.value[i] == Split(doc[SubjectField].items[i]))
        && (!(Present(doc, SubjectField) && !doc[SubjectField].Texts?) ==>
              && r == Success(ResolveBrand(params, libraries).value)
              && additionalAuthors == (if Present(doc, AuthorsField) then Some(doc[AuthorsField]) else old(additionalAuthors)))
    {
      document := doc;
      var brand := ResolveBrand(params, libraries);
      if brand.Failure? {
        return Failure(BadBrand(brand.error));
      }
      var raised := LoadHoldings(fetched);
      if raised {
        return Failure(LocationMissing);
      }
      FillTitle();
      LoadUrls(links);
      raised := LoadSubjects();
      if raised {
        return Failure(SubjectsNotArray);
      }
      LoadAuthors();
      r := Success(brand.value);
    }

    /** Lines 36-42 of `show`: keep the fetched list, take the flags from its first
        entry, then sort it in place by location, descending. */
    method LoadHoldings(fetched: Option<array<Holding>>) returns (raised: bool)
      modifies this`holdings, this`holdable, this`bookable, if fetched.Some? then {fetched.value} else {}
      ensures holdings == fetched
      ensures raised <==> fetched.Some? && SortRaises(old(fetched.value[..]))
      ensures fetched.Some? && fetched.value.Length > 0 ==>
        holdable == old(fetched.value[0]).holdable && bookable == old(fetched.value[0]).bookable
      ensures !(fetched.Some? && fetched.value.Length > 0) ==>
        holdable == old(holdable) && bookable == old(bookable)
      ensures fetched.Some? && !raised ==>
        Descending(fetched.value[..]) && multiset(fetched.value[..]) == multiset(old(fetched.value[..]))
    {
      holdings := fetched;
      raised := false;
      if fetched.Some? && fetched.value.Length > 0 {
        var a := fetched.value;
        holdable := a[0].holdable;
        bookable := a[0].bookable;
        if SortRaises(a[..]) {
          return true;
        }
        SortByLocationDescending(a);
      }
    }

    /** Line 44: the placeholder title for a record without one. */
    method FillTitle()
      modifies this`document
      ensures document == WithTitle(old(document))
    {
      if !Present(document, TitleField) {
        document := document[TitleField := Text(Placeholder)];
      }
    }

    /** Line 46: the full-text links are fetched only for a record that has them. */
    method LoadUrls(links: seq<string>)
      modifies this`urls
      ensures urls == if Present(document, FullTextField) then Some(links) else old(urls)
    {
      if Present(document, FullTextField) {
        urls := Some(links);
      }
    }

    /** Lines 48-53: each subject heading split into its "--"-separated parts. */
    method LoadSubjects() returns (raised: bool)
      modifies this`subjects
      ensures raised <==> Present(document, SubjectField) && !document[SubjectField].Texts?
      ensures !Present(document, SubjectField) ==> subjects == old(subjects)
      ensures raised ==> subjects == Some([])
      ensures Present(document, SubjectField) && document[SubjectField].Texts? ==>
        && subjects.Some? && |subjects.value| == |document[SubjectField].items|
        && forall i :: 0 <= i < |subjects.value| ==> subjects.value[i] == Split(document[SubjectField].items[i])
    {
      raised := false;
      if !Present(document, SubjectField) {
        return;
      }
      subjects := Some([]);
      match document[SubjectField]
      case Texts(items) =>
        var i := 0;
        while i < |items|
          invariant 0 <= i <= |items|
          invariant subjects.Some? && |subjects.value| == i
          invariant forall k :: 0 <= k < i ==> subjects.value[k] == Split(items[k])
        {
          subjects := Some(subjects.value + [Split(items[i])]);
          i := i + 1;
        }
      case _ =>
        raised := true;
    }

    /** Lines 55-57: the additional authors, passed through as they are. */
    method LoadAuthors()
      modifies this`additionalAuthors
      ensures additionalAuthors == if Present(document, AuthorsField) then Some(document[AuthorsField]) else old(additionalAuthors)
    {
      if Present(document, AuthorsField) {
        additionalAuthors := Some(document[AuthorsField]);
      }
    }
  }
}
