/** Which library brand a request is rendered for, and that library's display data.
    The controller stores these in process-wide globals; here they are a returned value. */
module Branding {
  import opened Wrappers

  /** The brand used when the request carries no `lib` parameter. */
  const DefaultBrand: string := "neos"

  /** A library's entry in the lookup table: a hash of string fields. */
  type Library = map<string, string>

  /** What `$brand`, `$libraryname`, `$homeurl` and `$neosurl` end up holding. */
  datatype Brand = Brand(id: string, name: Option<string>, url: Option<string>, neosurl: Option<string>)

  /** Reading a field of an unknown library is `nil['name']`, which raises. */
  datatype BrandError = UnknownLibrary(id: string)

  /** `if params.include?('lib') then params['lib'] else 'neos'`. */
  function SelectBrand(params: map<string, string>): (id: string)
    ensures "lib" in params ==> id == params["lib"]
    ensures "lib" !in params ==> id == DefaultBrand
  {
    if "lib" in params then params["lib"] else DefaultBrand
  }

  /** Selects the brand, then reads `name`, `url` and `neosurl` from its table entry. */
  function ResolveBrand(params: map<string, string>, libraries: map<string, Library>): (r: Result<Brand, BrandError>)
    ensures r.Success? <==> SelectBrand(params) in libraries
    ensures r.Failure? ==> r.error == UnknownLibrary(SelectBrand(params))
    ensures r.Success? ==>
      && r.value.id == SelectBrand(params)
      && (r.value.name.Some? <==> "name" in libraries[r.value.id])
      && (r.value.name.Some? ==> r.value.name.value == libraries[r.value.id]["name"])
      && (r.value.url.Some? <==> "url" in libraries[r.value.id])
      && (r.value.url.Some? ==> r.value.url.value == libraries[r.value.id]["url"])
      && (r.value.neosurl.Some? <==> "neosurl" in libraries[r.value.id])
      && (r.value.neosurl.Some? ==> r.value.neosurl.value == libraries[r.value.id]["neosurl"])
  {
    var id := SelectBrand(params);
    if id in libraries then
      var entry := libraries[id];
      Success(Brand(id, Lookup(entry, "name"), Lookup(entry, "url"), Lookup(entry, "neosurl")))
    else
      Failure(UnknownLibrary(id))
  }

  /** A `lib` parameter that is present but empty is looked up as it is;
      it does not fall back to the default brand. */
  lemma EmptyLibIsLookedUpVerbatim(libraries: map<string, Library>)
    ensures SelectBrand(map["lib" := ""]) == ""
    ensures "" !in libraries ==> ResolveBrand(map["lib" := ""], libraries).Failure?
  {
  }
}
