/** The dashboard: the editable profile, its link and shop lists, the
    handlers that save them, and the preview derived from them. */
module Dashboard {
  import opened Wrappers
  import opened Strings
  import opened Entries

  datatype Social = Social(instagram: string, youtube: string)

  datatype Appearance = Appearance(theme: string, buttonColor: string, layout: string)

  /** The `profile` state. `links` and `shops` are absent from it until a
      `saveProfile` of that field succeeds; the lists shown are the
      separate `links` and `shops` states. */
  datatype Profile = Profile(
    profileImage: string,
    bannerImage: string,
    profileTitle: string,
    bio: string,
    social: Social,
    appearance: Appearance,
    category: string,
    links: Option<seq<LinkEntry>>,
    shops: Option<seq<LinkEntry>>)

  const DefaultSocial := Social("", "")
  const DefaultAppearance := Appearance("light", "#000000", "vertical")
  const DefaultCategory := "Business"

  /** The initial `profile`, also used when loading fails. */
  const DefaultProfile := Profile("", "", "", "", DefaultSocial, DefaultAppearance, DefaultCategory, None, None)

  /** The body of the profile response; any top-level field may be
      missing. A `social` or `appearance` object that is present is taken to
      carry all of its fields. */
  datatype ProfileData = ProfileData(
    profileImage: Option<string>,
    bannerImage: Option<string>,
    profileTitle: Option<string>,
    bio: Option<string>,
    social: Option<Social>,
    appearance: Option<Appearance>,
    category: Option<string>,
    links: Option<seq<LinkEntry>>,
    shops: Option<seq<LinkEntry>>)

  /** `value || fallback` on a string: a missing or empty value gives the
      fallback. */
  function OrText(value: Option<string>, fallback: string): (r: string)
    ensures value.Some? && value.value != "" ==> r == value.value
    ensures value.None? || value.value == "" ==> r == fallback
  {
    match value
    case None => fallback
    case Some(v) => if v == "" then fallback else v
  }

  /** The `profile` that `fetchProfile` sets from a response. */
  function LoadedProfile(d: ProfileData): (p: Profile)
    ensures p.links.None? && p.shops.None?
    ensures p.category != ""
    ensures p.profileTitle == d.profileTitle.GetOr("") && p.bio == d.bio.GetOr("")
    ensures p.profileImage == d.profileImage.GetOr("") && p.bannerImage == d.bannerImage.GetOr("")
    ensures p.category == OrText(d.category, DefaultCategory)
    ensures p.social == d.social.GetOr(DefaultSocial) && p.appearance == d.appearance.GetOr(DefaultAppearance)
  {
    Profile(
      OrText(d.profileImage, ""),
      OrText(d.bannerImage, ""),
      OrText(d.profileTitle, ""),
      OrText(d.bio, ""),
      d.social.GetOr(DefaultSocial),
      d.appearance.GetOr(DefaultAppearance),
      OrText(d.category, DefaultCategory),
      None,
      None)
  }

  /** A `saveProfile(field, value)` argument: the field and its new value. */
  datatype Change =
    | ProfileImage(url: string)
    | BannerImage(url: string)
    | ProfileTitle(title: string)
    | Bio(text: string)
    | SocialLinks(social: Social)
    | Look(appearance: Appearance)
    | Category(name: string)
    | Links(entries: seq<LinkEntry>)
    | Shops(entries: seq<LinkEntry>)

  /** `a` and `b` name the same field. */
  predicate SameField(a: Change, b: Change)
  {
    match a
    case ProfileImage(_) => b.ProfileImage?
    case BannerImage(_) => b.BannerImage?
    case ProfileTitle(_) => b.ProfileTitle?
    case Bio(_) => b.Bio?
    case SocialLinks(_) => b.SocialLinks?
    case Look(_) => b.Look?
    case Category(_) => b.Category?
    case Links(_) => b.Links?
    case Shops(_) => b.Shops?
  }

  /** The value `p` holds in the field `c` names; none for an absent `links`
      or `shops` field. */
  function Current(p: Profile, c: Change): Option<Change>
  {
    match c
    case ProfileImage(_) => Some(ProfileImage(p.profileImage))
    case BannerImage(_) => Some(BannerImage(p.bannerImage))
    case ProfileTitle(_) => Some(ProfileTitle(p.profileTitle))
    case Bio(_) => Some(Bio(p.bio))
    case SocialLinks(_) => Some(SocialLinks(p.social))
    case Look(_) => Some(Look(p.appearance))
    case Category(_) => Some(Category(p.category))
    case Links(_) => if p.links.Some? then Some(Links(p.links.value)) else None
    case Shops(_) => if p.shops.Some? then Some(Shops(p.shops.value)) else None
  }

  /** `{ ...profile, [field]: value }`: the named field takes the new value
      and every other field keeps its old one. */
  function Apply(p: Profile, c: Change): (r: Profile)
    ensures Current(r, c) == Some(c)
  {
    match c
    case ProfileImage(v) => p.(profileImage := v)
    case BannerImage(v) => p.(bannerImage := v)
    case ProfileTitle(v) => p.(profileTitle := v)
    case Bio(v) => p.(bio := v)
    case SocialLinks(v) => p.(social := v)
    case Look(v) => p.(appearance := v)
    case Category(v) => p.(category := v)
    case Links(v) => p.(links := Some(v))
    case Shops(v) => p.(shops := Some(v))
  }

  /** A save leaves every other field as it was. */
  lemma ApplyFrame(p: Profile, c: Change, d: Change)
    requires !SameField(c, d)
    ensures Current(Apply(p, c), d) == Current(p, d)
  {
  }

  /** The fields determine the profile. */
  lemma CurrentDetermines(p: Profile, q: Profile)
    requires forall c :: Current(p, c) == Current(q, c)
    ensures p == q
  {
    assert Current(p, ProfileImage("")) == Current(q, ProfileImage(""));
    assert Current(p, BannerImage("")) == Current(q, BannerImage(""));
    assert Current(p, ProfileTitle("")) == Current(q, ProfileTitle(""));
    assert Current(p, Bio("")) == Current(q, Bio(""));
    assert Current(p, SocialLinks(DefaultSocial)) == Current(q, SocialLinks(DefaultSocial));
    assert Current(p, Look(DefaultAppearance)) == Current(q, Look(DefaultAppearance));
    assert Current(p, Category("")) == Current(q, Category(""));
    assert Current(p, Links([])) == Current(q, Links([]));
    assert Current(p, Shops([])) == Current(q, Shops([]));
  }

  /** Saving the value a field already holds changes nothing. */
  lemma ApplyCurrent(p: Profile, c: Change)
    requires Current(p, c) == Some(c)
    ensures Apply(p, c) == p
  {
    var r := Apply(p, c);
    forall d ensures Current(r, d) == Current(p, d) {
      if !SameField(c, d) {
        ApplyFrame(p, c, d);
      }
    }
    CurrentDetermines(r, p);
  }

  /** A second save of the same field overrides the first. */
  lemma ApplyOverwrite(p: Profile, c: Change, d: Change)
    requires SameField(c, d)
    ensures Apply(Apply(p, c), d) == Apply(p, d)
  {
  }

  /** The preview pane. `None` stands for a part that is not rendered (the
      banner then shows its grey placeholder). */
  datatype PreviewView = PreviewView(
    banner: Option<string>,
    picture: Option<string>,
    title: string,
    instagram: Option<string>,
    youtube: Option<string>,
    linkButtons: seq<Button>,
    shopButtons: seq<Button>)

  /** `profileTitle || '@' + (instagram.split('/').pop() || youtube.split('/').pop() || '')`. */
  function PreviewTitle(p: Profile): (t: string)
    ensures p.profileTitle != "" ==> t == p.profileTitle
    ensures p.profileTitle == "" ==>
      |t| >= 1 && t[0] == '@' && '/' !in t[1..] &&
      (t == "@" <==> LastSegment(p.social.instagram) == "" && LastSegment(p.social.youtube) == "")
    ensures p.profileTitle == "" && LastSegment(p.social.instagram) != "" ==> t == "@" + LastSegment(p.social.instagram)
    ensures p.profileTitle == "" && LastSegment(p.social.instagram) == "" ==> t == "@" + LastSegment(p.social.youtube)
  {
    if p.profileTitle != "" then p.profileTitle
    else
      var ig := LastSegment(p.social.instagram);
      var handle := if ig != "" then ig else LastSegment(p.social.youtube);
      assert ("@" + handle)[1..] == handle;
      "@" + handle
  }

  /** An Instagram address ending in `/` has an empty last segment, so the
      title falls back to the YouTube one. */
  lemma TitleTrailingSlash(p: Profile)
    requires p.profileTitle == ""
    requires |p.social.instagram| > 0 && p.social.instagram[|p.social.instagram| - 1] == '/'
    ensures PreviewTitle(p) == "@" + LastSegment(p.social.youtube)
  {
  }

  /** The preview derived from the profile and the two list states: the
      images and social icons only when their URL is set, and one button
      per visible entry of each list, in order, opening its URL. The title
      is `PreviewTitle(p)` and the buttons are `LinkButtons(links)` and
      `ShopButtons(shops)`, whose contracts state the title rule and the
      `split('/').pop()` captions. */
  function PreviewOf(p: Profile, links: seq<LinkEntry>, shops: seq<LinkEntry>): (v: PreviewView)
    ensures v.banner.Some? <==> p.bannerImage != ""
    ensures v.picture.Some? <==> p.profileImage != ""
    ensures v.instagram.Some? <==> p.social.instagram != ""
    ensures v.youtube.Some? <==> p.social.youtube != ""
    ensures |v.linkButtons| == |Visible(links)| && |v.shopButtons| == |Visible(shops)|
    ensures forall i :: 0 <= i < |Visible(links)| ==> v.linkButtons[i].target == Visible(links)[i].url
    ensures forall i :: 0 <= i < |Visible(shops)| ==> v.shopButtons[i].target == Visible(shops)[i].url
  {
    PreviewView(
      NonEmpty(p.bannerImage),
      NonEmpty(p.profileImage),
      PreviewTitle(p),
      NonEmpty(p.social.instagram),
      NonEmpty(p.social.youtube),
      LinkButtons(links),
      ShopButtons(shops))
  }

  /** The preview never reads the `links` and `shops` fields of `profile`:
      saving either list leaves it as it was. */
  lemma PreviewShowsVisible(p: Profile, links: seq<LinkEntry>, shops: seq<LinkEntry>, lists: Change)
    requires lists.Links? || lists.Shops?
    ensures PreviewOf(Apply(p, lists), links, shops) == PreviewOf(p, links, shops)
  {
  }

  /** Which of the two lists a handler works on. */
  datatype Kind = LinkList | ShopList

  function ListChange(kind: Kind, entries: seq<LinkEntry>): Change
  {
    match kind
    case LinkList => Links(entries)
    case ShopList => Shops(entries)
  }

  function Other(kind: Kind): Kind
  {
    match kind
    case LinkList => ShopList
    case ShopList => LinkList
  }

  /** The dashboard component's editing state. Every handler that saves
      returns the profile it passes to `updateProfile` (`None` when it
      makes no call), and `ok` says whether that call succeeded. */
  class Editor {
    var links: seq<LinkEntry>
    var shops: seq<LinkEntry>
    var newLink: LinkEntry
    var newShop: LinkEntry
    var profile: Profile

    constructor ()
      ensures links == [] && shops == [] && newLink == Blank && newShop == Blank && profile == DefaultProfile
    {
      links, shops := [], [];
      newLink, newShop := Blank, Blank;
      profile := DefaultProfile;
    }

    function List(kind: Kind): seq<LinkEntry>
      reads this
    {
      match kind
      case LinkList => links
      case ShopList => shops
    }

    function Draft(kind: Kind): LinkEntry
      reads this
    {
      match kind
      case LinkList => newLink
      case ShopList => newShop
    }

    /** The preview pane of the current state. */
    function Preview(): PreviewView
      reads this
    {
      PreviewOf(profile, links, shops)
    }

    /** `fetchProfile`: the lists and the profile from the response, or the
        defaults when the request fails. */
    method FetchProfile(response: Option<ProfileData>)
      modifies this
      ensures response.Some? ==>
        links == response.value.links.GetOr([]) && shops == response.value.shops.GetOr([]) &&
        profile == LoadedProfile(response.value)
      ensures response.None? ==> links == [] && shops == [] && profile == DefaultProfile
      ensures newLink == old(newLink) && newShop == old(newShop)
    {
      match response
      case Some(d) =>
        links := d.links.GetOr([]);
        shops := d.shops.GetOr([]);
        profile := LoadedProfile(d);
      case None =>
        links, shops := [], [];
        profile := DefaultProfile;
    }

    /** Typing into the add-link or add-shop modal. */
    method EditDraft(kind: Kind, draft: LinkEntry)
      modifies this
      ensures Draft(kind) == draft && Draft(Other(kind)) == old(Draft(Other(kind)))
      ensures links == old(links) && shops == old(shops) && profile == old(profile)
    {
      match kind
      case LinkList => newLink := draft;
      case ShopList => newShop := draft;
    }

    /** `addLink` / `addShop`. An empty or unparsable URL, or one already in
        the same list, is refused with no request; otherwise the list with
        the draft appended is sent and, on success, becomes the list and
        the draft is reset. */
    method Add(kind: Kind, isValidUrl: string -> bool, ok: bool) returns (request: Option<Profile>)
      modifies this
      ensures var checked := CheckAdd(old(List(kind)), old(Draft(kind)), isValidUrl);
        && request == (if checked.Success? then Some(Apply(old(profile), ListChange(kind, checked.value))) else None)
        && List(kind) == (if checked.Success? && ok then old(List(kind)) + [old(Draft(kind))] else old(List(kind)))
        && Draft(kind) == (if checked.Success? && ok then Blank else old(Draft(kind)))
      ensures UniqueUrls(old(List(kind))) ==> UniqueUrls(List(kind))
      ensures List(Other(kind)) == old(List(Other(kind))) && Draft(Other(kind)) == old(Draft(Other(kind)))
      ensures profile == old(profile)
    {
      var checked := CheckAdd(List(kind), Draft(kind), isValidUrl);
      if checked.Failure? {
        return None;
      }
      if UniqueUrls(List(kind)) {
        CheckAddKeepsUnique(List(kind), Draft(kind), isValidUrl);
      }
      request := Some(Apply(profile, ListChange(kind, checked.value)));
      if ok {
        match kind
        case LinkList =>
          links := checked.value;
          newLink := Blank;
        case ShopList =>
          shops := checked.value;
          newShop := Blank;
      }
    }

    /** `deleteLink(idx)` / `deleteShop(idx)`: the list without position
        `idx` is sent and, on success, becomes the list. */
    method Delete(kind: Kind, idx: int, ok: bool) returns (request: Option<Profile>)
      modifies this
      ensures request == Some(Apply(old(profile), ListChange(kind, RemoveAt(old(List(kind)), idx))))
      ensures List(kind) == if ok then RemoveAt(old(List(kind)), idx) else old(List(kind))
      ensures UniqueUrls(old(List(kind))) ==> UniqueUrls(List(kind))
      ensures List(Other(kind)) == old(List(Other(kind)))
      ensures newLink == old(newLink) && newShop == old(newShop) && profile == old(profile)
    {
      var updated := RemoveAt(List(kind), idx);
      if UniqueUrls(List(kind)) {
        RemoveAtKeepsUnique(List(kind), idx);
      }
      request := Some(Apply(profile, ListChange(kind, updated)));
      if ok {
        match kind
        case LinkList => links := updated;
        case ShopList => shops := updated;
      }
    }

    /** An input's onChange: the field is set locally, nothing is sent. */
    method ChangeField(c: Change)
      modifies this
      ensures profile == Apply(old(profile), c)
      ensures links == old(links) && shops == old(shops) && newLink == old(newLink) && newShop == old(newShop)
    {
      profile := Apply(profile, c);
    }

    /** `saveProfile(field, value)`: the profile with that one field replaced
        is sent and, on success, becomes the profile. */
    method SaveProfile(c: Change, ok: bool) returns (request: Option<Profile>)
      modifies this
      ensures request == Some(Apply(old(profile), c))
      ensures profile == if ok then Apply(old(profile), c) else old(profile)
      ensures Current(old(profile), c) == Some(c) ==> profile == old(profile)
      ensures links == old(links) && shops == old(shops) && newLink == old(newLink) && newShop == old(newShop)
    {
      var updated := Apply(profile, c);
      if Current(profile, c) == Some(c) {
        ApplyCurrent(profile, c);
      }
      request := Some(updated);
      if ok {
        profile := updated;
      }
    }

    /** The visibility checkbox of entry `idx`, as written: the list with
        that entry's flag set to `checked` goes through `saveProfile`, so a
        success updates `profile.links` (or `profile.shops`) while the
        `links` / `shops` state, and with it the checkbox and the preview,
        stays as it was. */
    method Toggle(kind: Kind, idx: int, checked: bool, ok: bool) returns (request: Option<Profile>)
      modifies this
      ensures request == Some(Apply(old(profile), ListChange(kind, SetVisibility(old(List(kind)), idx, checked))))
      ensures profile == if ok then request.value else old(profile)
      ensures links == old(links) && shops == old(shops) && newLink == old(newLink) && newShop == old(newShop)
      ensures Preview() == old(Preview())
    {
      var updated := SetVisibility(List(kind), idx, checked);
      request := SaveProfile(ListChange(kind, updated), ok);
      PreviewShowsVisible(old(profile), links, shops, ListChange(kind, updated));
    }

    /** The visibility checkbox with the evidently intended effect: a
        success also makes the toggled list the shown list, so the preview
        shows entry `idx` exactly when `checked`. */
    method ToggleCorrected(kind: Kind, idx: int, checked: bool, ok: bool) returns (request: Option<Profile>)
      modifies this
      ensures request == Some(Apply(old(profile), ListChange(kind, SetVisibility(old(List(kind)), idx, checked))))
      ensures profile == if ok then request.value else old(profile)
      ensures List(kind) == if ok then SetVisibility(old(List(kind)), idx, checked) else old(List(kind))
      ensures ok && 0 <= idx < |old(List(kind))| ==>
        Visible(List(kind)) == Visible(old(List(kind))[..idx]) +
          (if checked then [old(List(kind))[idx].(visible := true)] else []) + Visible(old(List(kind))[idx + 1..])
      ensures UniqueUrls(old(List(kind))) ==> UniqueUrls(List(kind))
      ensures List(Other(kind)) == old(List(Other(kind)))
      ensures newLink == old(newLink) && newShop == old(newShop)
    {
      var updated := SetVisibility(List(kind), idx, checked);
      if 0 <= idx < |List(kind)| {
        VisibleAfterSetVisibility(List(kind), idx, checked);
      }
      request := SaveProfile(ListChange(kind, updated), ok);
      if ok {
        match kind
        case LinkList => links := updated;
        case ShopList => shops := updated;
      }
    }
  }

  /** A successful as-written toggle that hides the only link: the saved
      profile lists it as hidden, yet the preview, built from the `links`
      state, still shows a button for it. */
  lemma HiddenLinkStillShown(a: LinkEntry)
    requires a.visible
    ensures var saved := Apply(DefaultProfile, Links(SetVisibility([a], 0, false)));
      && saved.links == Some([a.(visible := false)])
      && Visible(saved.links.value) == []
      && |PreviewOf(saved, [a], []).linkButtons| == 1
  {
    assert SetVisibility([a], 0, false) == [a.(visible := false)];
    assert [a][1..] == [];
    assert Visible([a]) == [a];
    assert [a.(visible := false)][1..] == [];
  }

  /** Continuing from that state (the `links` state still `[a]`, the
      profile holding the hidden list): adding `b` sends a list in which
      `a` is visible again, while a later save of another field sends the
      stale hidden list, which lacks `b`. */
  lemma LaterSavesDisagree(a: LinkEntry, b: LinkEntry, isValidUrl: string -> bool)
    requires a.visible && b.url != "" && isValidUrl(b.url) && a.url != b.url
    ensures var stale := DefaultProfile.(links := Some([a.(visible := false)]));
      && CheckAdd([a], b, isValidUrl) == Success([a, b])
      && Apply(stale, Links([a, b])).links == Some([a, b])
      && Apply(stale, Bio("")).links == Some([a.(visible := false)])
      && b !in Apply(stale, Bio("")).links.value
  {
    assert !HasUrl([a], b.url) by {
      assert forall i | 0 <= i < |[a]| :: [a][i] == a;
    }
    assert [a] + [b] == [a, b];
  }
}
