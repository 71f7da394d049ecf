# NEOSDiscovery catalog controller, modelled in Dafny

This project models the catalog controller of the NEOS library discovery interface
(`app/controllers/catalog_controller.rb`). That file holds the only real logic of the
application, in three parts:

- **Brand selection** (`index` and `show`). The `lib` request parameter names the library
  brand, and `neos` is used when there is no such parameter. The brand's name, home URL and
  NEOS URL are then read from the libraries table.
- **Detail-page enrichment** (`show`). `show` takes the holdings list for the fetched record,
  reads the `holdable`/`bookable` flags from its first entry, and sorts the list in place by
  lower-cased location, descending. It then gives an untitled record a placeholder title,
  fetches full-text links only for records that have them, splits each subject heading on
  `"--"`, and passes the additional authors through unchanged.
- **Search configuration** (`configure_blacklight`). The block fills the `advanced_search`
  defaults with `||=`, twice. It then appends facet, result-list, detail, search and sort
  field registrations to ordered lists, and sets a few scalar options.

Files:

- `wrappers.dfy`: `Option` (Ruby's `nil`) and `Result` (an action that raises).
- `ruby_string.dfy`: the Ruby String behaviour the controller depends on. This is `<=>`,
  `downcase`, and `split('--')`, which drops trailing empty pieces.
- `branding.dfy`: brand selection and the table lookup. It is a pure function over the
  request parameters and the table.
- `holdings.dfy`: holdings entries and the in-place `sort!` on an `array`.
- `catalog.dfy`: class `CatalogController`. Its fields are the instance variables `show`
  assigns, and its methods are `Index` and `Show`. `Show` is built from one step method per
  block of the Ruby action.
- `search_config.dfy`: class `SearchConfig`, whose registries are sequences that the `Add*`
  methods append to. `ConfigureCatalog` models the whole block.

The libraries table, the fetched record, the holdings list and the links list are inputs.
The framework, `load_lookup_tables` and the holdings helper produce them, and none of those
is part of this model. The brand globals (`$brand`, `$libraryname`, `$homeurl`, `$neosurl`)
become the `Brand` value that `Index` and `Show` return.

Exceptions the Ruby code raises are modelled as `Failure` results, at the point where they
occur. The state written before that point is kept:

- an unknown brand makes `@libraries[$brand]` nil, and `nil['name']` raises;
- an entry without `:location` raises `nil.downcase` in the sort block when there are two or
  more entries. A comparison sort must compare every element at least once, so every entry
  reaches the block. A single entry is never compared.
- a `subject_t` that is not an array has no `each`, so the loop raises after `@subjects = []`.

## Where the code differs from the obvious reading

The model follows the code in each of these cases:

- The flags are read from the first entry **as fetched**, before the sort runs. They are not
  read from the first entry after sorting.
- When the holdings are nil or empty, the flags are **left unset**. They are not set to false,
  and no sort happens.
- The title fallback happens only when `title_display` is nil or `false`. An empty string is
  truthy in Ruby, so it stays as it is.
- A `lib` parameter that is present but empty is looked up as the brand `""`. It does not
  fall back to `neos` (`Branding.EmptyLibIsLookedUpVerbatim`).
- `Array#sort!` is not stable, so nothing is promised about the order of entries whose keys
  are equal.
- No search-field key is checked for duplicates. Nothing makes the first sort field the
  default. The code does neither.

## Model

| member | source | states |
|---|---|---|
| `Branding.SelectBrand` | app/controllers/catalog_controller.rb:15-19 | the brand is `params['lib']` verbatim (even `""`) when the key is present, and `neos` otherwise |
| `Branding.ResolveBrand` | app/controllers/catalog_controller.rb:15-22 | succeeds exactly when the selected brand is in the table; name/url/neosurl are then that entry's fields (nil when the entry lacks them); otherwise fails, naming the brand |
| `Branding.EmptyLibIsLookedUpVerbatim` | app/controllers/catalog_controller.rb:15-16 | an empty `lib` selects brand `""`, and fails when the table has no `""` entry |
| `Catalog.CatalogController.Index` | app/controllers/catalog_controller.rb:12-23 | `index` succeeds exactly when the selected brand is in the table, and returns that brand |
| `Catalog.CatalogController.Show` | app/controllers/catalog_controller.rb:25-58 | the whole action: brand first; flags from the first fetched entry before sorting and untouched for nil/empty holdings; holdings a descending permutation of the fetched list; then title fallback, links only with full text, subjects split, authors verbatim; each raise modelled at its point, with everything the action had not yet reached left unchanged |
| `Catalog.CatalogController.LoadHoldings` | app/controllers/catalog_controller.rb:36-42 | `@holdings` is the fetched list; flags equal its first entry's (unchanged when nil or empty); raises exactly when two or more entries include one without a location; otherwise the array is permuted into descending key order |
| `Catalog.CatalogController.FillTitle` | app/controllers/catalog_controller.rb:44 | the document becomes `WithTitle` of the old document |
| `Catalog.WithTitle` | app/controllers/catalog_controller.rb:44 | the title is always present afterwards; a present title (including `""`) is kept; an absent or false one becomes `Untitled document`; no other field changes or appears |
| `Catalog.WithTitleIdempotent` | app/controllers/catalog_controller.rb:44 | applying the title fallback twice is the same as once |
| `Catalog.CatalogController.LoadUrls` | app/controllers/catalog_controller.rb:46 | `@urls` is set to the fetched links exactly when `url_fulltext_display` is present, and is untouched otherwise |
| `Catalog.CatalogController.LoadSubjects` | app/controllers/catalog_controller.rb:48-53 | without `subject_t`, untouched; with an array, `@subjects` has one entry per subject, in order, each `Split` of it; with a non-array, it raises after setting `@subjects` to `[]` |
| `Catalog.CatalogController.LoadAuthors` | app/controllers/catalog_controller.rb:55-57 | `@additional_authors` is `author_addl_t` verbatim when present, and untouched otherwise |
| `Holdings.SortByLocationDescending` | app/controllers/catalog_controller.rb:41 | afterwards the downcased locations are non-increasing, and the array is a permutation of its old contents |
| `Holdings.InsertDown` | app/controllers/catalog_controller.rb:41 | one insertion step extends the sorted prefix by one entry and keeps the multiset of entries |
| `Holdings.DescendingHeadIsGreatest` | app/controllers/catalog_controller.rb:39-41 | in the sorted list the first entry has the greatest downcased location |
| `Holdings.MainBeforeAnnex` | app/controllers/catalog_controller.rb:41 | locations `main` and `Annex` sort as `[main, Annex]`, and the other order is not descending |
| `RubyString.Cmp` | app/controllers/catalog_controller.rb:41 | `<=>` yields -1, 0 or 1, and 0 exactly for equal strings |
| `RubyString.CmpAntisymmetric` | app/controllers/catalog_controller.rb:41 | swapping the operands of `<=>` negates the result |
| `RubyString.CmpProperPrefix` | app/controllers/catalog_controller.rb:41 | under `<=>` a proper prefix sorts before the longer string |
| `RubyString.CmpFirstDifference` | app/controllers/catalog_controller.rb:41 | past a common prefix, the first differing character decides `<=>`: the smaller code point sorts first |
| `RubyString.CmpTransitive` | app/controllers/catalog_controller.rb:41 | "not after" under `<=>` is transitive, so the sort block is a total preorder |
| `RubyString.Downcase` | app/controllers/catalog_controller.rb:41 | same length; each ASCII capital replaced by its lower-case letter, all other characters kept; no ASCII capital remains |
| `RubyString.DowncaseCharAlike` | app/controllers/catalog_controller.rb:41 | two characters downcase alike exactly when they are equal or the same ASCII letter in two cases |
| `RubyString.DowncaseIgnoresCase` | app/controllers/catalog_controller.rb:41 | two strings of one length have equal sort keys exactly when they differ at most in the case of ASCII letters |
| `RubyString.SplitAll` | app/controllers/catalog_controller.rb:51 | cutting at every leftmost `--` yields at least one piece |
| `RubyString.TrimTrailingEmpty` | app/controllers/catalog_controller.rb:51 | the result is a prefix of the pieces, everything dropped is empty, and the result does not end in an empty piece |
| `RubyString.Split` | app/controllers/catalog_controller.rb:51 | `split('--')` is the full cut minus its trailing empty pieces |
| `RubyString.SplitAllHeadIsPrefix` | app/controllers/catalog_controller.rb:51 | the first piece is a prefix of the string |
| `RubyString.JoinSplitAll` | app/controllers/catalog_controller.rb:51 | joining the pieces with `--` gives back the string |
| `RubyString.SplitAllPieces` | app/controllers/catalog_controller.rb:51 | no piece contains `--`, and no piece before a cut ends in `-` |
| `RubyString.SplitAllOfPiece` | app/controllers/catalog_controller.rb:51 | a string without `--` is its own only piece |
| `RubyString.SplitAllAfterPiece` | app/controllers/catalog_controller.rb:51 | the first cut falls right after a well-formed leading piece |
| `RubyString.SplitAllJoin` | app/controllers/catalog_controller.rb:51 | cutting a join of well-formed pieces gives back the pieces, so cut and join are inverse |
| `RubyString.SplitMeaning` | app/controllers/catalog_controller.rb:51 | no piece of `split('--')` contains `--`, and the pieces plus the dropped empty ones join back to the subject |
| `RubyString.SplitFictionMystery` | app/controllers/catalog_controller.rb:51 | `"Fiction--Mystery"` splits into `["Fiction", "Mystery"]` |
| `RubyString.SplitThreeLevels` | app/controllers/catalog_controller.rb:51 | `"A--B--C"` splits into `["A", "B", "C"]` |
| `SearchConfiguration.AdvancedDefaults` | app/controllers/catalog_controller.rb:62-66 | a set option is never overwritten; every option other than the three keeps its value, even a falsy one; unset `url_key`, `query_parser`, `form_solr_parameters` get `advanced`, `dismax`, `{}`; exactly those three keys are added; all three are set afterwards |
| `SearchConfiguration.AdvancedDefaultsIdempotent` | app/controllers/catalog_controller.rb:62-73 | applying the defaults a second time leaves the result unchanged |
| `SearchConfiguration.SearchConfig.FillAdvancedDefaults` | app/controllers/catalog_controller.rb:62-66 | `advanced_search` becomes `AdvancedDefaults` of its old value; nothing else changes |
| `SearchConfiguration.ConfigureAdvancedSearch` | app/controllers/catalog_controller.rb:62-73 | the block's two passes leave `advanced_search` as a single pass does |
| `SearchConfiguration.SearchConfig.AddFacetField` | app/controllers/catalog_controller.rb:138 | a facet is appended at the end; nothing is reordered or removed, and no other registry changes |
| `SearchConfiguration.SearchConfig.AddIndexField` | app/controllers/catalog_controller.rb:158 | a result-list field is appended at the end; nothing else changes |
| `SearchConfiguration.SearchConfig.AddShowField` | app/controllers/catalog_controller.rb:169 | a detail field is appended at the end; nothing else changes |
| `SearchConfiguration.SearchConfig.AddSearchField` | app/controllers/catalog_controller.rb:238 | a search field is appended at the end; nothing else changes |
| `SearchConfiguration.SearchConfig.AddSortField` | app/controllers/catalog_controller.rb:282 | a sort field is appended at the end; nothing else changes |
| `SearchConfiguration.ConfigureFacets` | app/controllers/catalog_controller.rb:138-148 | the facets follow the existing ones in registration order |
| `SearchConfiguration.ConfigureIndexFields` | app/controllers/catalog_controller.rb:158-163 | the result-list fields follow the existing ones in registration order |
| `SearchConfiguration.ConfigureShowFields` | app/controllers/catalog_controller.rb:169-213 | the detail fields follow the existing ones in registration order |
| `SearchConfiguration.RegisterDescriptionShowFields` | app/controllers/catalog_controller.rb:169-185 | the first group of detail fields, in order |
| `SearchConfiguration.RegisterNoteShowFields` | app/controllers/catalog_controller.rb:189-199 | the second group of detail fields, in order |
| `SearchConfiguration.RegisterRelationShowFields` | app/controllers/catalog_controller.rb:200-213 | the third group of detail fields, in order |
| `SearchConfiguration.ConfigureSearchFields` | app/controllers/catalog_controller.rb:238-276 | the four search fields with their Solr and local parameters and `qt`, in order |
| `SearchConfiguration.ConfigureSortFields` | app/controllers/catalog_controller.rb:282-285 | the four sort orders, in order |
| `SearchConfiguration.CatalogKeysDistinct` | app/controllers/catalog_controller.rb:138-285 | no facet, result-list, search or sort key is registered twice, so keyed storage and appending agree |
| `SearchConfiguration.ConfigureFields` | app/controllers/catalog_controller.rb:138-285 | all five registries grow by appending, in registration order |
| `SearchConfiguration.ConfigureRequestDefaults` | app/controllers/catalog_controller.rb:85-108 | `rows: 10`, and the result-list title and type fields |
| `SearchConfiguration.ConfigureSuggestions` | app/controllers/catalog_controller.rb:289-293 | `spell_max` 5, autocomplete enabled, path `suggest` |
| `SearchConfiguration.ConfigureCatalog` | app/controllers/catalog_controller.rb:60-294 | the whole block: advanced defaults as one pass, every registry its old contents followed by this file's registrations in order, and the scalar settings |

## Left out

- `super`, the `holdings(...)` helper and `load_lookup_tables` are not part of this model. The
  fetched record, both holdings results and the libraries table are inputs.
- The brand globals are process-wide state shared between requests. The model returns the
  brand as a value instead and does not model sharing between concurrent requests.
- RubyString.Downcase: maps only ASCII `A`-`Z`. Ruby's `downcase` also applies full Unicode
  case mapping, so keys with non-ASCII capitals are not modelled faithfully.
- A `lib` parameter without a value (`?lib`, which Rack parses as `nil`) is not modelled.
  Parameter values are strings.
- Holding: an entry keeps only `:location`, `:holdable` and `:bookable`. Its other keys
  (call number, status and so on) are dropped, so the permutation proved for the sort is over
  those three fields only.
- A holdings list containing `nil` entries is not modelled. Entries are hashes whose keys may
  be missing.
- Show: when the sort raises, the model promises nothing about the holdings array's contents.
- Blacklight stores each registry keyed by field name, and re-registering a key replaces the
  old entry. The model appends instead. `CatalogKeysDistinct` proves that no facet, result-list,
  search or sort key repeats, so for those registries the two readings agree. The 36 detail-field
  names are distinct by inspection of the source, but that is not proved.
- `add_facet_fields_to_solr_request!`, the facet-limit-plus-one request behaviour, query
  handlers and `$title_qf`-style local-parameter expansion, and the effect of `spell_max` and
  autocomplete are Blacklight and Solr behaviour. Their parameter values are opaque strings.
- The label Blacklight derives when a search field has none (`title`, `author`, `subject`) is
  framework behaviour. The model records the label as absent.
- The `include` mixins (range limit, advanced search, MARC, RIS) and view rendering are
  framework features.
