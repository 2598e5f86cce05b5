/**
 * The farm details form of `FarmDetailsForm.tsx`: its field record, the
 * single-field update, crop-name autocomplete, the derived full address
 * sent on submission, and the reverse-geocoded address autofill.
 */
module FarmForm {
  import opened Wrappers
  import opened Seqs
  import opened Strings
  import opened Types

  /** The form's state record: a `FarmData` without its derived `fullAddress`. */
  datatype FormFields = FormFields(
    street: string,
    town: string,
    district: string,
    state: string,
    pincode: string,
    landArea: LandArea,
    areaUnit: AreaUnit,
    currentCrop: string,
    waterSource: WaterSource,
    budget: Budget)

  /** The blank form shown on first render. */
  const InitialForm: FormFields := FormFields("", "", "", "", "", Blank, Acres, "", Rain, Low)

  /** The `id`s of the inputs and selects wired to `handleChange`. */
  datatype FieldId =
    | StreetField | TownField | DistrictField | StateField | PincodeField
    | LandAreaField | AreaUnitField | WaterSourceField | BudgetField

  /** A value one of those inputs can deliver. */
  datatype FieldValue =
    | Text(text: string)
    | AreaValue(area: LandArea)
    | UnitValue(unit: AreaUnit)
    | WaterValue(water: WaterSource)
    | BudgetValue(budget: Budget)

  /** The value has the shape of the field: each select only offers its own options. */
  predicate Fits(id: FieldId, v: FieldValue)
  {
    match id
    case LandAreaField => v.AreaValue?
    case AreaUnitField => v.UnitValue?
    case WaterSourceField => v.WaterValue?
    case BudgetField => v.BudgetValue?
    case _ => v.Text?
  }

  /** `formData[id]`. */
  function Get(f: FormFields, id: FieldId): (v: FieldValue)
    ensures Fits(id, v)
  {
    match id
    case StreetField => Text(f.street)
    case TownField => Text(f.town)
    case DistrictField => Text(f.district)
    case StateField => Text(f.state)
    case PincodeField => Text(f.pincode)
    case LandAreaField => AreaValue(f.landArea)
    case AreaUnitField => UnitValue(f.areaUnit)
    case WaterSourceField => WaterValue(f.waterSource)
    case BudgetField => BudgetValue(f.budget)
  }

  /**
   * `{ ...prev, [id]: value }`: the field named by `id` now holds `v`, every
   * other field (the crop name included) holds what it held before.
   */
  function Update(f: FormFields, id: FieldId, v: FieldValue): (r: FormFields)
    requires Fits(id, v)
    ensures forall j :: Get(r, j) == if j == id then v else Get(f, j)
    ensures r.currentCrop == f.currentCrop
  {
    match id
    case StreetField => f.(street := v.text)
    case TownField => f.(town := v.text)
    case DistrictField => f.(district := v.text)
    case StateField => f.(state := v.text)
    case PincodeField => f.(pincode := v.text)
    case LandAreaField => f.(landArea := v.area)
    case AreaUnitField => f.(areaUnit := v.unit)
    case WaterSourceField => f.(waterSource := v.water)
    case BudgetField => f.(budget := v.budget)
  }

  /** Writing back the value a field already holds leaves the form as it was. */
  lemma UpdateWithCurrentValue(f: FormFields, id: FieldId)
    ensures Update(f, id, Get(f, id)) == f
  {
  }

  /** JavaScript truthiness of a string: only the empty string is falsy. */
  predicate Truthy(s: string)
  {
    s != ""
  }

  /** The address fields in the order the full address lists them. */
  function AddressParts(f: FormFields): seq<string>
  {
    [f.street, f.town, f.district, f.state, f.pincode]
  }

  /**
   * `[street, town, district, state, pincode].filter(Boolean).join(', ')`:
   * empty exactly when all five fields are.
   */
  function FullAddress(f: FormFields): (r: string)
    ensures r == "" <==> f.street == f.town == f.district == f.state == f.pincode == ""
  {
    var present := Filter(AddressParts(f), Truthy);
    JoinEmpty(present, ", ");
    assert forall i :: 0 <= i < |present| ==> present[i] != "";
    assert present != [] ==> present[0] in AddressParts(f);
    assert f.street != "" ==> f.street in present;
    assert f.town != "" ==> f.town in present;
    assert f.district != "" ==> f.district in present;
    assert f.state != "" ==> f.state in present;
    assert f.pincode != "" ==> f.pincode in present;
    Join(present, ", ")
  }

  /**
   * When no field holds a comma, splitting the full address at `", "` gives
   * back precisely the non-empty fields in their fixed order, each as often
   * as it occurs among the fields: no segment is empty, none is missing, and
   * there is no leading or trailing separator.
   */
  lemma FullAddressSegments(f: FormFields)
    requires forall i :: 0 <= i < 5 ==> ',' !in AddressParts(f)[i]
    ensures FullAddress(f) != "" ==> Split(FullAddress(f), ", ") == Filter(AddressParts(f), Truthy)
    ensures FullAddress(f) != "" ==>
      var pieces := Split(FullAddress(f), ", ");
      && IsSubsequence(pieces, AddressParts(f))
      && (forall i :: 0 <= i < |pieces| ==> pieces[i] != "")
      && (forall p :: p in AddressParts(f) && p != "" ==> p in pieces)
  {
    var present := Filter(AddressParts(f), Truthy);
    FilterIsSubsequence(AddressParts(f), Truthy);
    if present != [] {
      forall i | 0 <= i < |present|
        ensures ", "[0] !in present[i]
      {
        assert present[i] in AddressParts(f);
      }
      SplitJoin(present, ", ");
    }
  }

  /** With street and district blank, the address is town, state and pincode. */
  lemma FullAddressWithoutStreet(f: FormFields)
    requires f.street == f.district == "" && f.town != "" && f.state != "" && f.pincode != ""
    ensures FullAddress(f) == f.town + ", " + f.state + ", " + f.pincode
  {
    PresentWithoutStreet(f);
    JoinThree(f.town, f.state, f.pincode, ", ");
  }

  lemma PresentWithoutStreet(f: FormFields)
    requires f.street == f.district == "" && f.town != "" && f.state != "" && f.pincode != ""
    ensures Filter(AddressParts(f), Truthy) == [f.town, f.state, f.pincode]
  {
    FilterFive(f.street, f.town, f.district, f.state, f.pincode, Truthy);
    assert [] + [f.town] + [] + [f.state] + [f.pincode] == [f.town, f.state, f.pincode];
  }

  lemma JoinThree(a: string, b: string, c: string, sep: string)
    ensures Join([a, b, c], sep) == a + sep + b + sep + c
  {
    assert [a, b, c][1..] == [b, c] && [b, c][1..] == [c];
    assert Join([c], sep) == c;
    assert Join([b, c], sep) == b + sep + c;
    assert Join([a, b, c], sep) == a + sep + (b + sep + c);
  }

  /** Street and district blank: `"Pune, MH, 411001"`. */
  lemma FullAddressExample(f: FormFields)
    requires f.street == f.district == "" && f.town == "Pune" && f.state == "MH" && f.pincode == "411001"
    ensures FullAddress(f) == "Pune, MH, 411001"
  {
    FullAddressWithoutStreet(f);
  }

  /** `{ ...formData, fullAddress }`: the record handed to the submit callback. */
  function Submission(f: FormFields): (d: FarmData)
    ensures FormPart(d) == f
    ensures d.fullAddress == FullAddress(f)
  {
    FarmData(f.street, f.town, f.district, f.state, f.pincode, f.landArea, f.areaUnit,
             f.currentCrop, f.waterSource, f.budget, FullAddress(f))
  }

  /** A profile without its derived address. */
  function FormPart(d: FarmData): FormFields
  {
    FormFields(d.street, d.town, d.district, d.state, d.pincode, d.landArea, d.areaUnit,
               d.currentCrop, d.waterSource, d.budget)
  }

  /** The cap on the number of crop suggestions. */
  const SuggestionCap: nat := 5

  /** `c.crop.toLowerCase().includes(value.toLowerCase())` */
  function NameMatches(query: string): CropData -> bool
  {
    (c: CropData) => Contains(ToLower(c.crop), ToLower(query))
  }

  /**
   * `allCrops.filter(nameMatches).slice(0, 5)`: at most five records whose
   * lower-cased name contains the lower-cased query, in dataset order; they
   * are the first matches, and when fewer than five are offered, they are
   * all the matching records.
   */
  function Suggestions(allCrops: seq<CropData>, query: string): (r: seq<CropData>)
    ensures |r| == Min(SuggestionCap, |Filter(allCrops, NameMatches(query))|)
    ensures r <= Filter(allCrops, NameMatches(query))
    ensures forall i :: 0 <= i < |r| ==> Contains(ToLower(r[i].crop), ToLower(query))
    ensures IsSubsequence(r, allCrops)
    ensures |r| < SuggestionCap ==> forall c :: c in allCrops && Contains(ToLower(c.crop), ToLower(query)) ==> c in r
  {
    var matching := Filter(allCrops, NameMatches(query));
    FilterIsSubsequence(allCrops, NameMatches(query));
    SubsequencePrefix(matching, allCrops, Min(SuggestionCap, |matching|));
    assert |matching| < SuggestionCap ==> matching[..|matching|] == matching;
    matching[..Min(SuggestionCap, |matching|)]
  }

  /**
   * The autocomplete ignores case: queries that differ only in the case of
   * letters give the same suggestions.
   */
  lemma SuggestionsIgnoreCase(allCrops: seq<CropData>, query: string, other: string)
    requires EqualIgnoringCase(query, other)
    ensures Suggestions(allCrops, query) == Suggestions(allCrops, other)
  {
    ToLowerEqual(query, other);
    FilterSameTest(allCrops, NameMatches(query), NameMatches(other));
  }

  /** A crop name matches a query regardless of the case either is written in. */
  lemma NameMatchIgnoresCase(query: string, other: string, c: CropData, d: CropData)
    requires EqualIgnoringCase(query, other) && EqualIgnoringCase(c.crop, d.crop)
    ensures NameMatches(query)(c) == NameMatches(other)(d)
  {
    ToLowerEqual(query, other);
    ToLowerEqual(c.crop, d.crop);
  }

  /** JavaScript `x || fallback` where `x` is an optional string. */
  function Or(x: Option<string>, fallback: string): string
  {
    if x.Some? && Truthy(x.value) then x.value else fallback
  }

  /** The first present, non-empty string of `xs`, or `""` when there is none. */
  function FirstTruthy(xs: seq<Option<string>>): (r: string)
    ensures r == "" <==> forall i :: 0 <= i < |xs| ==> !(xs[i].Some? && Truthy(xs[i].value))
    ensures forall i :: (0 <= i < |xs| && xs[i].Some? && Truthy(xs[i].value)
      && forall j :: 0 <= j < i ==> !(xs[j].Some? && Truthy(xs[j].value))) ==> r == xs[i].value
  {
    if xs == [] then ""
    else if xs[0].Some? && Truthy(xs[0].value) then xs[0].value
    else
      assert forall i :: 1 <= i < |xs| ==> xs[1..][i - 1] == xs[i];
      FirstTruthy(xs[1..])
  }

  /** The fallback chains `x || ''`, `x || y || ''` and `x || y || z || ''` pick the first truthy member. */
  lemma FallbackChains(x: Option<string>, y: Option<string>, z: Option<string>)
    ensures FirstTruthy([x]) == Or(x, "")
    ensures FirstTruthy([x, y]) == Or(x, Or(y, ""))
    ensures FirstTruthy([x, y, z]) == Or(x, Or(y, Or(z, "")))
  {
    assert [x, y, z][1..] == [y, z] && [y, z][1..] == [z] && [x, y][1..] == [y];
    assert FirstTruthy([z]) == Or(z, "");
    assert FirstTruthy([y]) == Or(y, "");
    assert FirstTruthy([y, z]) == Or(y, Or(z, ""));
  }

  /** The `address` object of a reverse-geocoding response; absent members are `None`. */
  datatype GeoAddress = GeoAddress(
    road: Option<string>,
    suburb: Option<string>,
    village: Option<string>,
    town: Option<string>,
    city: Option<string>,
    county: Option<string>,
    stateDistrict: Option<string>,
    state: Option<string>,
    postcode: Option<string>)

  /**
   * The autofill of the address fields from a reverse-geocoded address: each
   * field takes the first non-empty candidate in its fallback chain, and
   * nothing but the five address fields changes.
   */
  function ApplyGeoAddress(f: FormFields, a: GeoAddress): (r: FormFields)
    ensures r.street == FirstTruthy([a.road, a.suburb])
    ensures r.town == FirstTruthy([a.village, a.town, a.city])
    ensures r.district == FirstTruthy([a.county, a.stateDistrict])
    ensures r.state == FirstTruthy([a.state])
    ensures r.pincode == FirstTruthy([a.postcode])
    ensures r == f.(street := r.street, town := r.town, district := r.district, state := r.state, pincode := r.pincode)
  {
    FallbackChains(a.village, a.town, a.city);
    FallbackChains(a.road, a.suburb, None);
    FallbackChains(a.county, a.stateDistrict, None);
    FallbackChains(a.state, None, None);
    FallbackChains(a.postcode, None, None);
    f.(street := Or(a.road, Or(a.suburb, "")),
       town := Or(a.village, Or(a.town, Or(a.city, ""))),
       district := Or(a.county, Or(a.stateDistrict, "")),
       state := Or(a.state, ""),
       pincode := Or(a.postcode, ""))
  }

  /** How a location request ends. */
  datatype LocationOutcome =
    | PositionFailed                     // the geolocation error callback
    | LookupFailed                       // the reverse-geocoding request or its JSON rejected
    | LookedUp(address: Option<GeoAddress>)  // a response, with or without an `address`

  class FarmDetailsForm {
    /** The dataset the autocomplete searches: the `allCrops` prop, fixed when the form is built. */
    const allCrops: seq<CropData>
    var formData: FormFields
    var suggestions: seq<CropData>
    var showSuggestions: bool
    var isFetchingLocation: bool

    constructor (allCrops: seq<CropData>)
      ensures this.allCrops == allCrops
      ensures formData == InitialForm && suggestions == []
      ensures !showSuggestions && !isFetchingLocation
    {
      this.allCrops := allCrops;
      formData := InitialForm;
      suggestions := [];
      showSuggestions := false;
      isFetchingLocation := false;
    }

    /** `handleChange`: the input named `id` now holds `v`. */
    method HandleChange(id: FieldId, v: FieldValue)
      requires Fits(id, v)
      modifies this`formData
      ensures formData == Update(old(formData), id, v)
    {
      formData := Update(formData, id, v);
    }

    /**
     * `handleCropInputChange`: the typed text becomes the current crop; for
     * more than one character the suggestions are recomputed and shown,
     * otherwise they are hidden but kept.
     */
    method HandleCropInputChange(value: string)
      modifies this`formData, this`suggestions, this`showSuggestions
      ensures formData == old(formData).(currentCrop := value)
      ensures |value| > 1 ==> suggestions == Suggestions(allCrops, value) && showSuggestions
      ensures |value| <= 1 ==> suggestions == old(suggestions) && !showSuggestions
    {
      formData := formData.(currentCrop := value);
      if |value| > 1 {
        suggestions := Suggestions(allCrops, value);
        showSuggestions := true;
      } else {
        showSuggestions := false;
      }
    }

    /** The crop input's `onFocus`: reopens the list when more than one character is typed. */
    method HandleCropFocus()
      modifies this`showSuggestions
      ensures showSuggestions == (old(showSuggestions) || |formData.currentCrop| > 1)
    {
      if |formData.currentCrop| > 1 {
        showSuggestions := true;
      }
    }

    /** `handleSuggestionClick`: the picked name becomes the current crop and the list closes. */
    method HandleSuggestionClick(cropName: string)
      modifies this`formData, this`showSuggestions
      ensures formData == old(formData).(currentCrop := cropName)
      ensures !showSuggestions
    {
      formData := formData.(currentCrop := cropName);
      showSuggestions := false;
    }

    /**
     * `handleSubmit`: the profile handed to the submit callback is the form
     * as it stands plus its derived full address; the form itself is left
     * as it is.
     */
    method HandleSubmit() returns (submitted: FarmData)
      ensures FormPart(submitted) == formData
      ensures submitted.fullAddress == FullAddress(formData)
    {
      submitted := Submission(formData);
    }

    /** `getLocation`: a request starts only where the browser offers geolocation. */
    method GetLocation(geolocationAvailable: bool)
      modifies this`isFetchingLocation
      ensures isFetchingLocation == (old(isFetchingLocation) || geolocationAvailable)
    {
      if geolocationAvailable {
        isFetchingLocation := true;
      }
    }

    /**
     * The end of a location request: a response carrying an address fills the
     * address fields; every outcome clears the busy flag.
     */
    method FinishLocation(outcome: LocationOutcome)
      modifies this`formData, this`isFetchingLocation
      ensures outcome.LookedUp? && outcome.address.Some? ==> formData == ApplyGeoAddress(old(formData), outcome.address.value)
      ensures !(outcome.LookedUp? && outcome.address.Some?) ==> formData == old(formData)
      ensures !isFetchingLocation
    {
      if outcome.LookedUp? && outcome.address.Some? {
        formData := ApplyGeoAddress(formData, outcome.address.value);
      }
      isFetchingLocation := false;
    }
  }
}
