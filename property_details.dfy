/**
 * The property details page: looking the listing up by the id in the
 * route, the image carousel with wrap-around navigation, the facility
 * badges and the pre-filled inquiry form.
 */
module PropertyDetails {
  import opened Wrappers
  import opened PgTypes
  import opened MockData
  import opened AuthContext
  import opened Seqs

  /** `mockPgListings.find(pg => pg.id === id)`. */
  function FindById(listings: seq<PgListing>, id: string): (r: Option<PgListing>)
    ensures r.Some? ==> r.value in listings && r.value.id == id
    ensures r.None? <==> forall pg | pg in listings :: pg.id != id
  {
    match FindFirst(listings, (pg: PgListing) => pg.id == id)
    case Some(k) => Some(listings[k])
    case None => None
  }

  /** The listing found is the first one with the id: no earlier listing has it. */
  lemma FindByIdIsFirst(listings: seq<PgListing>, id: string, k: nat)
    requires k < |listings| && listings[k].id == id
    ensures FindById(listings, id).Some?
    ensures exists i | 0 <= i <= k :: FindById(listings, id) == Some(listings[i])
                                      && forall j | 0 <= j < i :: listings[j].id != id
  {
    assert listings[k] in listings;
    var i := FindFirst(listings, (pg: PgListing) => pg.id == id).value;
    assert i <= k;
  }

  /** Each fixture listing is found by its own id. */
  lemma FixtureLookup(k: nat)
    requires k < |MockPgListings|
    ensures FindById(MockPgListings, MockPgListings[k].id) == Some(MockPgListings[k])
  {
    var i := FindFirst(MockPgListings, (pg: PgListing) => pg.id == MockPgListings[k].id).value;
    assert i == k;
  }

  /** `nextImage`'s index step: the last image wraps to the first. */
  function NextIndex(i: int, n: int): (r: int)
    ensures 0 <= i < n ==> r == (i + 1) % n
  {
    if i == n - 1 then 0 else i + 1
  }

  /** `prevImage`'s index step: the first image wraps to the last. */
  function PrevIndex(i: int, n: int): (r: int)
    ensures 0 <= i < n ==> r == (i + n - 1) % n
  {
    if i == 0 then n - 1 else i - 1
  }

  /** With at least one image, both steps stay within the images and wrap at the ends. */
  lemma StepsStayInRange(i: int, n: int)
    requires 1 <= n && 0 <= i < n
    ensures 0 <= NextIndex(i, n) < n && 0 <= PrevIndex(i, n) < n
    ensures i == n - 1 ==> NextIndex(i, n) == 0
    ensures i == 0 ==> PrevIndex(i, n) == n - 1
  {
  }

  /** The two steps undo each other on `[0, n)`. */
  lemma StepsAreInverses(i: int, n: int)
    requires 1 <= n && 0 <= i < n
    ensures PrevIndex(NextIndex(i, n), n) == i
    ensures NextIndex(PrevIndex(i, n), n) == i
  {
  }

  /** `k` presses of the next arrow. */
  function NextTimes(k: nat, i: int, n: int): int
  {
    if k == 0 then i else NextIndex(NextTimes(k - 1, i, n), n)
  }

  /** `k` presses of the next arrow advance the index by `k` modulo the number of images. */
  lemma {:induction false} NextTimesIsModular(k: nat, i: int, n: int)
    requires 1 <= n && 0 <= i < n
    ensures NextTimes(k, i, n) == (i + k) % n
  {
    if k > 0 {
      NextTimesIsModular(k - 1, i, n);
      var j := (i + k - 1) % n;
      assert NextTimes(k, i, n) == NextIndex(j, n);
      if j == n - 1 {
        assert (i + k) % n == 0 by { ModStep(i + k - 1, n); }
      } else {
        assert (i + k) % n == j + 1 by { ModStep(i + k - 1, n); }
      }
    }
  }

  lemma {:induction false} MulAtLeast(a: int, n: int)
    requires a >= 1 && n >= 1
    ensures a * n >= n
  {
    if a > 1 {
      MulAtLeast(a - 1, n);
      assert a * n == (a - 1) * n + n;
    }
  }

  /** A remainder is determined by any quotient-and-remainder split of `x`. */
  lemma ModUnique(x: int, n: int, q: int, r: int)
    requires 1 <= n && 0 <= r < n && x == q * n + r
    ensures x % n == r
  {
    var q', r' := x / n, x % n;
    assert x == q' * n + r';
    if q' > q {
      assert (q' - q) * n == r - r';
      MulAtLeast(q' - q, n);
    } else if q' < q {
      assert (q - q') * n == r' - r;
      MulAtLeast(q - q', n);
    }
  }

  /** Adding one to `x` adds one to its remainder, except where the remainder wraps to 0. */
  lemma ModStep(x: int, n: int)
    requires 1 <= n && 0 <= x
    ensures (x + 1) % n == if x % n == n - 1 then 0 else x % n + 1
  {
    var q := x / n;
    assert x == q * n + x % n;
    if x % n == n - 1 {
      assert x + 1 == (q + 1) * n;
      ModUnique(x + 1, n, q + 1, 0);
    } else {
      ModUnique(x + 1, n, q, x % n + 1);
    }
  }

  /** Pressing next as many times as there are images comes back to the start. */
  lemma NextFullCycle(i: int, n: int)
    requires 1 <= n && 0 <= i < n
    ensures NextTimes(n, i, n) == i
  {
    NextTimesIsModular(n, i, n);
    ModUnique(i + n, n, 1, i);
  }

  /** Every fixture listing has images, so the carousel's range is never empty there. */
  lemma FixtureListingsHaveImages(pg: PgListing)
    requires pg in MockPgListings
    ensures |pg.images| >= 1
  {
  }

  /** Whether each facility badge is highlighted, in `FacilityIds` order. */
  function FacilityHighlights(pg: PgListing): (r: seq<bool>)
    ensures |r| == |FacilityIds|
    ensures forall i | 0 <= i < |FacilityIds| :: r[i] <==> FacilityIds[i] in pg.facilities
  {
    seq(|FacilityIds|, i requires 0 <= i < |FacilityIds| => FacilityIds[i] in pg.facilities)
  }

  /** Shown in the main image slot when the index has no image (or an empty URL). */
  const PlaceholderImage: string :=
    "https://images.pexels.com/photos/1571460/pexels-photo-1571460.jpeg?auto=compress&cs=tinysrgb&w=1260&h=750&dpr=2"

  /** The main image for index `i`: the listing's image there, or the placeholder. */
  function DisplayedImage(pg: PgListing, i: int): (url: string)
    ensures 0 <= i < |pg.images| && pg.images[i] != "" ==> url == pg.images[i]
    ensures !(0 <= i < |pg.images|) || pg.images[i] == "" ==> url == PlaceholderImage
    ensures url != ""
  {
    if 0 <= i < |pg.images| && pg.images[i] != "" then pg.images[i] else PlaceholderImage
  }

  datatype Inquiry = Inquiry(name: string, email: string, phone: string, message: string)

  /** The inquiry form starts from the signed-in user's name and email. */
  function InitialInquiry(user: Option<User>): (q: Inquiry)
    ensures user.Some? ==> q.name == user.value.name && q.email == user.value.email
    ensures user.None? ==> q.name == "" && q.email == ""
    ensures q.phone == "" && q.message == ""
  {
    match user
    case Some(u) => Inquiry(u.name, u.email, "", "")
    case None => Inquiry("", "", "", "")
  }

  /** What the page renders. */
  datatype Screen = Spinner | PropertyNotFound | Details(pg: PgListing)

  /** The page component's state. */
  class Page {
    var property: Option<PgListing>
    var loading: bool
    var currentImageIndex: int
    var showInquiryForm: bool
    var inquiry: Inquiry

    constructor (user: Option<User>)
      ensures property.None? && loading && currentImageIndex == 0
      ensures !showInquiryForm && inquiry == InitialInquiry(user)
    {
      property := None;
      loading := true;
      currentImageIndex := 0;
      showInquiryForm := false;
      inquiry := InitialInquiry(user);
    }

    function CurrentScreen(): (s: Screen)
      reads this
      ensures loading ==> s == Spinner
      ensures !loading && property.None? ==> s == PropertyNotFound
      ensures !loading && property.Some? ==> s == Details(property.value)
    {
      if loading then Spinner
      else match property
        case Some(pg) => Details(pg)
        case None => PropertyNotFound
    }

    /** The current image index points at one of the property's images. */
    ghost predicate IndexInRange()
      reads this
    {
      property.Some? ==> 0 <= currentImageIndex < |property.value.images|
    }

    /** The lookup effect: the first fixture listing with the route's id, then stop loading. */
    method LoadProperty(id: string)
      modifies this`property, this`loading
      ensures property == FindById(MockPgListings, id) && !loading
      ensures property.Some? ==> |property.value.images| >= 1
    {
      property := FindById(MockPgListings, id);
      loading := false;
      if property.Some? {
        FixtureListingsHaveImages(property.value);
      }
    }

    /** `nextImage`: a no-op until a property is loaded. */
    method NextImage()
      modifies this`currentImageIndex
      ensures property.None? ==> currentImageIndex == old(currentImageIndex)
      ensures property.Some? ==> currentImageIndex == NextIndex(old(currentImageIndex), |property.value.images|)
      ensures old(IndexInRange()) ==> IndexInRange()
    {
      if property.Some? {
        currentImageIndex := NextIndex(currentImageIndex, |property.value.images|);
      }
    }

    /** `prevImage`: a no-op until a property is loaded. */
    method PrevImage()
      modifies this`currentImageIndex
      ensures property.None? ==> currentImageIndex == old(currentImageIndex)
      ensures property.Some? ==> currentImageIndex == PrevIndex(old(currentImageIndex), |property.value.images|)
      ensures old(IndexInRange()) ==> IndexInRange()
    {
      if property.Some? {
        currentImageIndex := PrevIndex(currentImageIndex, |property.value.images|);
      }
    }

    /** Clicking the thumbnail at `index`. */
    method SelectImage(index: nat)
      requires property.Some? && index < |property.value.images|
      modifies this`currentImageIndex
      ensures currentImageIndex == index && IndexInRange()
    {
      currentImageIndex := index;
    }

    /** The "Send Inquiry" button shows or hides the form. */
    method ToggleInquiryForm()
      modifies this`showInquiryForm
      ensures showInquiryForm == !old(showInquiryForm)
    {
      showInquiryForm := !showInquiryForm;
    }

    /** Submitting the inquiry only hides the form; nothing is sent anywhere. */
    method SubmitInquiry()
      modifies this`showInquiryForm
      ensures !showInquiryForm
    {
      showInquiryForm := false;
    }
  }
}
