/**
 * The owner dashboard: the owner's listings, the "add property" form with
 * its list of image-URL fields, and the handlers that add and remove
 * listings and edit the URL fields.
 */
module OwnerDashboard {
  import opened Wrappers
  import opened Text
  import opened Seqs
  import opened PgTypes
  import opened MockData
  import opened AuthContext

  /** The add-property form. */
  datatype PropertyForm = PropertyForm(
    name: string,
    location: string,
    price: int,
    description: string,
    imageUrls: seq<string>)

  /** The form when the page opens and after every successful add: one empty URL field. */
  const EmptyForm: PropertyForm := PropertyForm("", "", 0, "", [""])

  const DefaultDescription: string := "A comfortable PG accommodation with all basic amenities."

  /** `url.trim() !== ''`. */
  predicate IsFilledUrl(url: string)
  {
    Trim(url) != ""
  }

  /** The URL fields worth keeping as images. */
  function FilledUrls(urls: seq<string>): seq<string>
  {
    Keep(urls, IsFilledUrl)
  }

  /** The kept URLs are exactly the fields holding a non-space character, in their original order. */
  lemma FilledUrlsSpec(urls: seq<string>, url: string)
    ensures url in FilledUrls(urls) <==> url in urls && !IsBlank(url)
    ensures IsSubseq(FilledUrls(urls), urls)
  {
    KeepMember(urls, IsFilledUrl, url);
    TrimEmptyIffBlank(url);
    KeepIsSubseq(urls, IsFilledUrl);
  }

  /** `user?.id || ''`. */
  function OwnerId(user: Option<User>): (id: string)
    ensures user.None? ==> id == ""
    ensures user.Some? ==> id == user.value.id
  {
    match user
    case Some(u) => u.id
    case None => ""
  }

  /** The listing `handleAddProperty` builds from the form; `id` is `pg-` and the clock reading. */
  function NewListing(form: PropertyForm, id: string, user: Option<User>): (pg: PgListing)
    ensures pg.id == id && pg.name == form.name && pg.location == form.location && pg.price == form.price
    ensures pg.description == (if form.description == "" then DefaultDescription else form.description)
    ensures pg.description != ""
    ensures pg.images == FilledUrls(form.imageUrls)
    ensures pg.rating == 0.0 && pg.reviews == []
    ensures pg.roomTypes == ["Single", "Double"] && pg.facilities == ["wifi", "food"]
    ensures pg.owner == OwnerId(user)
  {
    PgListing(
      id := id,
      name := form.name,
      location := form.location,
      price := form.price,
      description := if form.description != "" then form.description else DefaultDescription,
      images := FilledUrls(form.imageUrls),
      rating := 0.0,
      reviews := [],
      roomTypes := ["Single", "Double"],
      facilities := ["wifi", "food"],
      owner := OwnerId(user))
  }

  /** The "Add Property" button is enabled only for a named, located listing with a positive price. */
  predicate AddEnabled(form: PropertyForm)
  {
    form.name != "" && form.location != "" && form.price > 0
  }

  /** The freshly reset form cannot be submitted. */
  lemma EmptyFormDisabled()
    ensures !AddEnabled(EmptyForm)
  {
  }

  /** `pgListings.filter(pg => pg.id !== id)`. */
  function RemoveById(listings: seq<PgListing>, id: string): seq<PgListing>
  {
    Keep(listings, (pg: PgListing) => pg.id != id)
  }

  /** Removing deletes exactly the listings with that id and keeps the rest in order. */
  lemma RemoveByIdSpec(listings: seq<PgListing>, id: string, pg: PgListing)
    ensures pg in RemoveById(listings, id) <==> pg in listings && pg.id != id
    ensures IsSubseq(RemoveById(listings, id), listings)
  {
    KeepMember(listings, (pg: PgListing) => pg.id != id, pg);
    KeepIsSubseq(listings, (pg: PgListing) => pg.id != id);
  }

  /** Removing an id no listing has changes nothing. */
  lemma RemoveAbsentId(listings: seq<PgListing>, id: string)
    requires forall pg | pg in listings :: pg.id != id
    ensures RemoveById(listings, id) == listings
  {
    KeepAll(listings, (pg: PgListing) => pg.id != id);
  }

  /** Removing twice is removing once. */
  lemma RemoveIdempotent(listings: seq<PgListing>, id: string)
    ensures RemoveById(RemoveById(listings, id), id) == RemoveById(listings, id)
  {
    var p := (pg: PgListing) => pg.id != id;
    KeepKeep(listings, p, p, p);
  }

  /** The page component's state. */
  class Dashboard {
    var pgListings: seq<PgListing>
    var isAddingProperty: bool
    var newProperty: PropertyForm

    constructor ()
      ensures pgListings == MockOwnerPgListings
      ensures !isAddingProperty && newProperty == EmptyForm
    {
      pgListings := MockOwnerPgListings;
      isAddingProperty := false;
      newProperty := EmptyForm;
    }

    /** "Add New Property" opens the form panel. */
    method OpenAddPanel()
      modifies this`isAddingProperty
      ensures isAddingProperty
    {
      isAddingProperty := true;
    }

    /** "Cancel" closes the panel and keeps what was typed. */
    method CancelAdd()
      modifies this`isAddingProperty
      ensures !isAddingProperty
    {
      isAddingProperty := false;
    }

    /** `handleAddProperty`: append one listing built from the form, close the panel, reset the form. */
    method AddProperty(stamp: string, user: Option<User>)
      modifies this
      ensures pgListings == old(pgListings) + [NewListing(old(newProperty), "pg-" + stamp, user)]
      ensures |pgListings| == |old(pgListings)| + 1 && pgListings[..|old(pgListings)|] == old(pgListings)
      ensures !isAddingProperty && newProperty == EmptyForm
    {
      var newPg := NewListing(newProperty, "pg-" + stamp, user);
      ghost var before := pgListings;
      pgListings := pgListings + [newPg];
      assert pgListings[..|before|] == before;
      isAddingProperty := false;
      newProperty := EmptyForm;
    }

    /** `handleRemoveProperty`. */
    method RemoveProperty(id: string)
      modifies this`pgListings
      ensures pgListings == RemoveById(old(pgListings), id)
    {
      pgListings := RemoveById(pgListings, id);
    }

    /** `addImageUrlField`: one more, empty, URL field at the end. */
    method AddImageUrlField()
      modifies this`newProperty
      ensures newProperty == old(newProperty).(imageUrls := old(newProperty.imageUrls) + [""])
    {
      newProperty := newProperty.(imageUrls := newProperty.imageUrls + [""]);
    }

    /** `updateImageUrl`: copy the URL list, overwrite one entry of the copy, store the copy. */
    method UpdateImageUrl(index: nat, value: string)
      requires index < |newProperty.imageUrls|
      modifies this`newProperty
      ensures newProperty == old(newProperty).(imageUrls := old(newProperty.imageUrls)[index := value])
      ensures |newProperty.imageUrls| == |old(newProperty.imageUrls)|
      ensures forall i | 0 <= i < |newProperty.imageUrls| && i != index ::
                newProperty.imageUrls[i] == old(newProperty.imageUrls)[i]
    {
      var urls := newProperty.imageUrls;
      var updatedUrls := new string[|urls|](i requires 0 <= i < |urls| => urls[i]);
      updatedUrls[index] := value;
      newProperty := newProperty.(imageUrls := updatedUrls[..]);
    }
  }
}
