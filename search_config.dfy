/** The catalog's search configuration: the `configure_blacklight` block, which fills
    `advanced_search` defaults with `||=` and appends field registrations in order. */
module SearchConfiguration {
  import opened Wrappers

  /** A value stored in `advanced_search`: a string, a parameter hash, or a boolean. */
  datatype Setting = Str(s: string) | Hash(entries: map<string, string>) | Bool(b: bool)

  /** `||=` assigns when the current value is `nil` or `false`. */
  predicate Truthy(v: Setting) {
    v != Bool(false)
  }

  type Settings = map<string, Setting>

  predicate IsSet(m: Settings, key: string) {
    key in m && Truthy(m[key])
  }

  const UrlKey: string := "url_key"
  const QueryParser: string := "query_parser"
  const FormSolrParameters: string := "form_solr_parameters"

  /** `add_facet_field name, label: …, collapse: …, sort: …, limit: …, range: …`. */
  datatype FacetField = FacetField(field: string, caption: string, collapse: Option<bool>,
                                   sort: Option<string>, limit: Option<nat>, range: Option<bool>)

  /** `add_index_field` / `add_show_field name, label: …, separator: …`. */
  datatype DisplayField = DisplayField(field: string, caption: string, separator: Option<string>)

  /** `add_search_field key` with its optional label, Solr parameters, local parameters and `qt`. */
  datatype SearchField = SearchField(key: string, caption: Option<string>, solrParameters: map<string, string>,
                                     localParameters: map<string, string>, qt: Option<string>)

  /** `add_sort_field 'expression', label: …`. */
  datatype SortField = SortField(sort: string, caption: string)

  /** `m[key] ||= v`. */
  function OrAssign(m: Settings, key: string, v: Setting): Settings {
    if IsSet(m, key) then m else m[key := v]
  }

  /** Lines 62-66: `advanced_search ||= {}` and then the three `||=` defaults. */
  function AdvancedDefaults(adv: Option<Settings>): (r: Settings)
    // the three options are added, and nothing else is added or removed
    ensures r.Keys == (if adv.Some? then adv.value.Keys else {}) + {UrlKey, QueryParser, FormSolrParameters}
    // an option that was already set is never overwritten
    ensures adv.Some? ==> forall k :: IsSet(adv.value, k) ==> k in r && r[k] == adv.value[k]
    // any other option keeps its value, even a falsy one
    ensures adv.Some? ==> forall k :: k in adv.value && k != UrlKey && k != QueryParser && k != FormSolrParameters ==>
      r[k] == adv.value[k]
    // an option that was unset gets its default
    ensures !(adv.Some? && IsSet(adv.value, UrlKey)) ==> r[UrlKey] == Str("advanced")
    ensures !(adv.Some? && IsSet(adv.value, QueryParser)) ==> r[QueryParser] == Str("dismax")
    ensures !(adv.Some? && IsSet(adv.value, FormSolrParameters)) ==> r[FormSolrParameters] == Hash(map[])
    ensures IsSet(r, UrlKey) && IsSet(r, QueryParser) && IsSet(r, FormSolrParameters)
  {
    var m := if adv.Some? then adv.value else map[];
    OrAssign(OrAssign(OrAssign(m, UrlKey, Str("advanced")), QueryParser, Str("dismax")), FormSolrParameters, Hash(map[]))
  }

  /** The block repeats lines 62-66 as lines 69-73; the repetition changes nothing. */
  lemma AdvancedDefaultsIdempotent(adv: Option<Settings>)
    ensures AdvancedDefaults(Some(AdvancedDefaults(adv))) == AdvancedDefaults(adv)
  {
  }

  /** The `config` object the block receives. */
  class SearchConfig {
    var advancedSearch: Option<Settings>
    var defaultSolrParams: map<string, int>
    var indexTitleField: Option<string>
    var indexDisplayTypeField: Option<string>
    var facetFields: seq<FacetField>
    var indexFields: seq<DisplayField>
    var showFields: seq<DisplayField>
    var searchFields: seq<SearchField>
    var sortFields: seq<SortField>
    var spellMax: Option<int>
    var autocompleteEnabled: Option<bool>
    var autocompletePath: Option<string>

    /** A configuration with nothing registered and nothing set. */
    constructor ()
      ensures advancedSearch == None && defaultSolrParams == map[]
      ensures indexTitleField == None && indexDisplayTypeField == None
      ensures facetFields == [] && indexFields == [] && showFields == [] && searchFields == [] && sortFields == []
      ensures spellMax == None && autocompleteEnabled == None && autocompletePath == None
    {
      advancedSearch := None;
      defaultSolrParams := map[];
      indexTitleField, indexDisplayTypeField := None, None;
      facetFields, indexFields, showFields, searchFields, sortFields := [], [], [], [], [];
      spellMax, autocompleteEnabled, autocompletePath := None, None, None;
    }

    /** The `advanced_search` defaults, applied in place. */
    method FillAdvancedDefaults()
      modifies this`advancedSearch
      ensures advancedSearch == Some(AdvancedDefaults(old(advancedSearch)))
    {
      if advancedSearch.None? {
        advancedSearch := Some(map[]);
      }
      advancedSearch := Some(OrAssign(advancedSearch.value, UrlKey, Str("advanced")));
      advancedSearch := Some(OrAssign(advancedSearch.value, QueryParser, Str("dismax")));
      advancedSearch := Some(OrAssign(advancedSearch.value, FormSolrParameters, Hash(map[])));
    }

    method AddFacetField(f: FacetField)
      modifies this`facetFields
      ensures facetFields == old(facetFields) + [f]
    {
      facetFields := facetFields + [f];
    }

    method AddIndexField(f: DisplayField)
      modifies this`indexFields
      ensures indexFields == old(indexFields) + [f]
    {
      indexFields := indexFields + [f];
    }

    method AddShowField(f: DisplayField)
      modifies this`showFields
      ensures showFields == old(showFields) + [f]
    {
      showFields := showFields + [f];
    }

    method AddSearchField(f: SearchField)
      modifies this`searchFields
      ensures searchFields == old(searchFields) + [f]
    {
      searchFields := searchFields + [f];
    }

    method AddSortField(f: SortField)
      modifies this`sortFields
      ensures sortFields == old(sortFields) + [f]
    {
      sortFields := sortFields + [f];
    }
  }

  function Facet(field: string, caption: string): FacetField {
    FacetField(field, caption, None, None, None, None)
  }

  function Display(field: string, caption: string): DisplayField {
    DisplayField(field, caption, None)
  }

  /** The facets of lines 138-148, in display order. */
  const CatalogFacets: seq<FacetField> := [
    Facet("electronic_tesim", "Access").(collapse := Some(false)),
    Facet("institution_tesim", "Institution").(sort := Some("index")),
    Facet("location_tesim", "Library").(sort := Some("index")),
    Facet("lc_1letter_facet", "Call Number").(limit := Some(10)),
    Facet("format", "Format").(limit := Some(10)),
    Facet("pub_date", "Publication Year").(range := Some(true)),
    Facet("author_display", "Author").(limit := Some(20)),
    Facet("subject_topic_facet", "Subject").(limit := Some(20)),
    Facet("language_facet", "Language").(limit := Some(10)),
    Facet("subject_geo_facet", "Geographic Region").(limit := Some(10)),
    Facet("subject_era_facet", "Historic Period").(limit := Some(10))
  ]

  /** The result-list fields of lines 158-163, in display order. */
  const CatalogIndexFields: seq<DisplayField> := [
    Display("author_display", "Author"),
    Display("edition_tesim", "Edition"),
    Display("author_vern_display", "Author"),
    Display("format", "Format"),
    Display("language_note_tesim", "Language"),
    Display("pub_date", "Publication Year")
  ]

  /** The detail-page fields of lines 169-185: title, authors, format, publication and holdings summary. */
  const DescriptionShowFields: seq<DisplayField> := [
    Display("title_addl_t", "Full/Alternate Title(s)"),
    Display("alternate_display_tesim", "Original"),
    Display("author_display", "Author"),
    Display("author_addl_t", "Additional authors/performers"),
    Display("author_vern_display", "Author"),
    Display("format", "Format"),
    Display("publisher_tesim", "Publisher"),
    Display("published_display", "Published"),
    Display("published_vern_display", "Published"),
    Display("pub_date", "Year"),
    Display("summary_holdings_tesim", "Summary of Holdings")
  ]

  /** The detail-page fields of lines 189-199: physical details, identifiers and notes. */
  const NoteShowFields: seq<DisplayField> := [
    Display("contains_tesim", "Other Physical Details"),
    Display("moreinfo_tesim", "Additional Information"),
    Display("isbn_tesim", "ISBN"),
    Display("issn_tesim", "ISSN"),
    DisplayField("general_note_tesim", "General Note", Some(" -- ")),
    DisplayField("local_note_tesim", "Note", Some(" -- ")),
    Display("contents_tesim", "Contents"),
    Display("summary_tesim", "Summary"),
    Display("target_audience_note_tesim", "Target Audience"),
    Display("awards_note_tesim", "Awards"),
    Display("bibliography_note_tesim", "Bibliography Note")
  ]

  /** The detail-page fields of lines 200-213: related titles, series, issuing and usage details. */
  const RelationShowFields: seq<DisplayField> := [
    Display("earlier_title_tesim", "Earlier title"),
    Display("later_title_tesim", "Later title"),
    Display("gmd_tesim", "Object type"),
    Display("performers_tesim", "Performers"),
    Display("title_series_t", "Series"),
    Display("publisher_number_tesim", "Publisher/issue number"),
    Display("arrangement_tesim", "Organization and Arrangement"),
    Display("time_of_event_tesim", "Date and Time of Event"),
    Display("issuing_body_tesim", "Issuing Body"),
    Display("supplementary_note_tesim", "Supplement Note"),
    Display("title_history_tesim", "Title History"),
    Display("numbering_tesim", "Numbering System"),
    Display("use_repro_tesim", "Use and Reproduction"),
    Display("language_note_tesim", "Language Note")
  ]

  /** One of the fielded searches of lines 244-276. */
  function FieldedSearch(key: string, qt: Option<string>): SearchField {
    SearchField(key, None, map["spellcheck.dictionary" := key],
                map["qf" := "$" + key + "_qf", "pf" := "$" + key + "_pf"], qt)
  }

  /** The search fields of lines 238-276, in pulldown order. */
  const CatalogSearchFields: seq<SearchField> := [
    SearchField("all_fields", Some("All Fields"), map[], map[], None),
    FieldedSearch("title", None),
    FieldedSearch("author", None),
    FieldedSearch("subject", Some("search"))
  ]

  /** The sort orders of lines 282-285, in pulldown order. */
  const CatalogSortFields: seq<SortField> := [
    SortField("score desc, pub_date_sort desc, title_sort asc", "relevance"),
    SortField("pub_date_sort desc, title_sort asc", "year"),
    SortField("author_sort asc, title_sort asc", "author"),
    SortField("title_sort asc, pub_date_sort desc", "title")
  ]

  /** No facet, result-list, search or sort key is registered twice, so Blacklight's keyed
      registries hold exactly the appended lists. */
  lemma CatalogKeysDistinct()
    ensures forall i, j :: 0 <= i < j < |CatalogFacets| ==> CatalogFacets[i].field != CatalogFacets[j].field
    ensures forall i, j :: 0 <= i < j < |CatalogIndexFields| ==> CatalogIndexFields[i].field != CatalogIndexFields[j].field
    ensures forall i, j :: 0 <= i < j < |CatalogSearchFields| ==> CatalogSearchFields[i].key != CatalogSearchFields[j].key
    ensures forall i, j :: 0 <= i < j < |CatalogSortFields| ==> CatalogSortFields[i].sort != CatalogSortFields[j].sort
  {
  }

  /** The whole `configure_blacklight` block: every registration lands after what
      was there, in the order written, and the settings get their values. */
  method ConfigureCatalog(config: SearchConfig)
    modifies config
    ensures config.advancedSearch == Some(AdvancedDefaults(old(config.advancedSearch)))
    ensures config.defaultSolrParams == map["rows" := 10]
    ensures config.indexTitleField == Some("title_display") && config.indexDisplayTypeField == Some("format")
    ensures config.facetFields == old(config.facetFields) + CatalogFacets
    ensures config.indexFields == old(config.indexFields) + CatalogIndexFields
    ensures config.showFields == old(config.showFields) + DescriptionShowFields + NoteShowFields + RelationShowFields
    ensures config.searchFields == old(config.searchFields) + CatalogSearchFields
    ensures config.sortFields == old(config.sortFields) + CatalogSortFields
    ensures config.spellMax == Some(5)
    ensures config.autocompleteEnabled == Some(true) && config.autocompletePath == Some("suggest")
  {
    ConfigureAdvancedSearch(config);
    ConfigureRequestDefaults(config);
    ConfigureFields(config);
    ConfigureSuggestions(config);
  }

  /** Lines 138-285: the five registries, each in its order of registration. */
  method ConfigureFields(config: SearchConfig)
    modifies config`facetFields, config`indexFields, config`showFields, config`searchFields, config`sortFields
    ensures config.facetFields == old(config.facetFields) + CatalogFacets
    ensures config.indexFields == old(config.indexFields) + CatalogIndexFields
    ensures config.showFields == old(config.showFields) + DescriptionShowFields + NoteShowFields + RelationShowFields
    ensures config.searchFields == old(config.searchFields) + CatalogSearchFields
    ensures config.sortFields == old(config.sortFields) + CatalogSortFields
  {
    ConfigureFacets(config);
    ConfigureIndexFields(config);
    ConfigureShowFields(config);
    ConfigureSearchFields(config);
    ConfigureSortFields(config);
  }

  /** Lines 85-108: the default Solr parameters and the result-list title and type fields. */
  method ConfigureRequestDefaults(config: SearchConfig)
    modifies config`defaultSolrParams, config`indexTitleField, config`indexDisplayTypeField
    ensures config.defaultSolrParams == map["rows" := 10]
    ensures config.indexTitleField == Some("title_display") && config.indexDisplayTypeField == Some("format")
  {
    config.defaultSolrParams := map["rows" := 10];
    config.indexTitleField := Some("title_display");
    config.indexDisplayTypeField := Some("format");
  }

  /** Lines 289-293: the spelling-suggestion threshold and the autocomplete settings. */
  method ConfigureSuggestions(config: SearchConfig)
    modifies config`spellMax, config`autocompleteEnabled, config`autocompletePath
    ensures config.spellMax == Some(5)
    ensures config.autocompleteEnabled == Some(true) && config.autocompletePath == Some("suggest")
  {
    config.spellMax := Some(5);
    config.autocompleteEnabled := Some(true);
    config.autocompletePath := Some("suggest");
  }

  /** Lines 62-73: the `advanced_search` defaults, written out twice in the block. */
  method ConfigureAdvancedSearch(config: SearchConfig)
    modifies config`advancedSearch
    ensures config.advancedSearch == Some(AdvancedDefaults(old(config.advancedSearch)))
  {
    config.FillAdvancedDefaults();
    config.FillAdvancedDefaults();
    AdvancedDefaultsIdempotent(old(config.advancedSearch));
  }

  method ConfigureFacets(config: SearchConfig)
    modifies config`facetFields
    ensures config.facetFields == old(config.facetFields) + CatalogFacets
  {
    config.AddFacetField(Facet("electronic_tesim", "Access").(collapse := Some(false)));
    config.AddFacetField(Facet("institution_tesim", "Institution").(sort := Some("index")));
    config.AddFacetField(Facet("location_tesim", "Library").(sort := Some("index")));
    config.AddFacetField(Facet("lc_1letter_facet", "Call Number").(limit := Some(10)));
    config.AddFacetField(Facet("format", "Format").(limit := Some(10)));
    config.AddFacetField(Facet("pub_date", "Publication Year").(range := Some(true)));
    config.AddFacetField(Facet("author_display", "Author").(limit := Some(20)));
    config.AddFacetField(Facet("subject_topic_facet", "Subject").(limit := Some(20)));
    config.AddFacetField(Facet("language_facet", "Language").(limit := Some(10)));
    config.AddFacetField(Facet("subject_geo_facet", "Geographic Region").(limit := Some(10)));
    config.AddFacetField(Facet("subject_era_facet", "Historic Period").(limit := Some(10)));
  }

  method ConfigureIndexFields(config: SearchConfig)
    modifies config`indexFields
    ensures config.indexFields == old(config.indexFields) + CatalogIndexFields
  {
    config.AddIndexField(Display("author_display", "Author"));
    config.AddIndexField(Display("edition_tesim", "Edition"));
    config.AddIndexField(Display("author_vern_display", "Author"));
    config.AddIndexField(Display("format", "Format"));
    config.AddIndexField(Display("language_note_tesim", "Language"));
    config.AddIndexField(Display("pub_date", "Publication Year"));
  }

  method ConfigureShowFields(config: SearchConfig)
    modifies config`showFields
    ensures config.showFields == old(config.showFields) + DescriptionShowFields + NoteShowFields + RelationShowFields
  {
    RegisterDescriptionShowFields(config);
    RegisterNoteShowFields(config);
    RegisterRelationShowFields(config);
  }

  /** Lines 169-185. */
  method RegisterDescriptionShowFields(config: SearchConfig)
    modifies config`showFields
    ensures config.showFields == old(config.showFields) + DescriptionShowFields
  {
    config.AddShowField(Display("title_addl_t", "Full/Alternate Title(s)"));
    config.AddShowField(Display("alternate_display_tesim", "Original"));
    config.AddShowField(Display("author_display", "Author"));
    config.AddShowField(Display("author_addl_t", "Additional authors/performers"));
    config.AddShowField(Display("author_vern_display", "Author"));
    config.AddShowField(Display("format", "Format"));
    config.AddShowField(Display("publisher_tesim", "Publisher"));
    config.AddShowField(Display("published_display", "Published"));
    config.AddShowField(Display("published_vern_display", "Published"));
    config.AddShowField(Display("pub_date", "Year"));
    config.AddShowField(Display("summary_holdings_tesim", "Summary of Holdings"));
  }

  /** Lines 189-199. */
  method RegisterNoteShowFields(config: SearchConfig)
    modifies config`showFields
    ensures config.showFields == old(config.showFields) + NoteShowFields
  {
    config.AddShowField(Display("contains_tesim", "Other Physical Details"));
    config.AddShowField(Display("moreinfo_tesim", "Additional Information"));
    config.AddShowField(Display("isbn_tesim", "ISBN"));
    config.AddShowField(Display("issn_tesim", "ISSN"));
    config.AddShowField(DisplayField("general_note_tesim", "General Note", Some(" -- ")));
    config.AddShowField(DisplayField("local_note_tesim", "Note", Some(" -- ")));
    config.AddShowField(Display("contents_tesim", "Contents"));
    config.AddShowField(Display("summary_tesim", "Summary"));
    config.AddShowField(Display("target_audience_note_tesim", "Target Audience"));
    config.AddShowField(Display("awards_note_tesim", "Awards"));
    config.AddShowField(Display("bibliography_note_tesim", "Bibliography Note"));
  }

  /** Lines 200-213. */
  method RegisterRelationShowFields(config: SearchConfig)
    modifies config`showFields
    ensures config.showFields == old(config.showFields) + RelationShowFields
  {
    config.AddShowField(Display("earlier_title_tesim", "Earlier title"));
    config.AddShowField(Display("later_title_tesim", "Later title"));
    config.AddShowField(Display("gmd_tesim", "Object type"));
    config.AddShowField(Display("performers_tesim", "Performers"));
    config.AddShowField(Display("title_series_t", "Series"));
    config.AddShowField(Display("publisher_number_tesim", "Publisher/issue number"));
    config.AddShowField(Display("arrangement_tesim", "Organization and Arrangement"));
    config.AddShowField(Display("time_of_event_tesim", "Date and Time of Event"));
    config.AddShowField(Display("issuing_body_tesim", "Issuing Body"));
    config.AddShowField(Display("supplementary_note_tesim", "Supplement Note"));
    config.AddShowField(Display("title_history_tesim", "Title History"));
    config.AddShowField(Display("numbering_tesim", "Numbering System"));
    config.AddShowField(Display("use_repro_tesim", "Use and Reproduction"));
    config.AddShowField(Display("language_note_tesim", "Language Note"));
  }

  method ConfigureSearchFields(config: SearchConfig)
    modifies config`searchFields
    ensures config.searchFields == old(config.searchFields) + CatalogSearchFields
  {
    config.AddSearchField(SearchField("all_fields", Some("All Fields"), map[], map[], None));
    config.AddSearchField(FieldedSearch("title", None));
    config.AddSearchField(FieldedSearch("author", None));
    config.AddSearchField(FieldedSearch("subject", Some("search")));
  }

  method ConfigureSortFields(config: SearchConfig)
    modifies config`sortFields
    ensures config.sortFields == old(config.sortFields) + CatalogSortFields
  {
    config.AddSortField(SortField("score desc, pub_date_sort desc, title_sort asc", "relevance"));
    config.AddSortField(SortField("pub_date_sort desc, title_sort asc", "year"));
    config.AddSortField(SortField("author_sort asc, title_sort asc", "author"));
    config.AddSortField(SortField("title_sort asc, pub_date_sort desc", "title"));
  }
}
