/** The public page a visitor sees at `/<username>`. */
module PublicProfile {
  import opened Wrappers
  import opened Entries
  import Dashboard

  /** The body of the public profile response. */
  datatype PublicData = PublicData(
    username: string,
    profileTitle: string,
    bannerImage: string,
    profileImage: string,
    links: Option<seq<LinkEntry>>,
    shops: Option<seq<LinkEntry>>)

  /** What the page renders: the loading text, or the profile. `None`
      stands for an image that is not rendered. `linkTarget` and
      `shopTarget` are the URLs the fixed "link" and "Shop" buttons open. */
  datatype Page =
    | Loading
    | Rendered(
        banner: Option<string>,
        picture: Option<string>,
        title: string,
        linkTarget: string,
        shopTarget: string,
        linkButtons: seq<Button>,
        shopButtons: seq<Button>)

  /** `list?.filter(visible).map(...)`: no buttons when the list is absent. */
  function ListButtons(s: Option<seq<LinkEntry>>, shop: bool): (r: seq<Button>)
    ensures s.None? ==> r == []
    ensures s.Some? ==> |r| == |Visible(s.value)|
    ensures s.Some? ==> forall i :: 0 <= i < |r| ==> r[i].target == Visible(s.value)[i].url
    ensures s.Some? && shop ==> forall i :: 0 <= i < |r| ==> r[i].caption == BuyNow
  {
    match s
    case None => []
    case Some(list) => if shop then ShopButtons(list) else LinkButtons(list)
  }

  /** The page for the loaded profile; no profile (still loading, or the
      request failed) shows the loading text. */
  function Render(data: Option<PublicData>): (page: Page)
    ensures data.None? <==> page.Loading?
    ensures data.Some? ==>
      var d := data.value;
      && (d.profileTitle != "" ==> page.title == d.profileTitle)
      && (d.profileTitle == "" ==> page.title == "@" + d.username)
      && (page.banner.Some? <==> d.bannerImage != "")
      && (page.picture.Some? <==> d.profileImage != "")
      && (d.links.Some? && d.links.value != [] ==> page.linkTarget == d.links.value[0].url)
      && (d.links.None? || d.links.value == [] ==> page.linkTarget == "")
      && (d.shops.Some? && d.shops.value != [] ==> page.shopTarget == d.shops.value[0].url)
      && (d.shops.None? || d.shops.value == [] ==> page.shopTarget == "")
      && (d.links.None? ==> page.linkButtons == [])
      && (d.shops.None? ==> page.shopButtons == [])
      && (d.links.Some? ==> page.linkButtons == LinkButtons(d.links.value))
      && (d.shops.Some? ==> page.shopButtons == ShopButtons(d.shops.value))
  {
    match data
    case None => Loading
    case Some(d) =>
      Rendered(
        NonEmpty(d.bannerImage),
        NonEmpty(d.profileImage),
        if d.profileTitle != "" then d.profileTitle else "@" + d.username,
        FirstUrl(d.links),
        FirstUrl(d.shops),
        ListButtons(d.links, false),
        ListButtons(d.shops, true))
  }

  /** The fixed "link" button opens the first link even when that link is
      hidden: with distinct URLs, a hidden first link has no button of its
      own, yet the fixed button still leads to it. */
  lemma HiddenFirstLinkReachable(d: PublicData)
    requires d.links.Some? && d.links.value != [] && !d.links.value[0].visible
    requires UniqueUrls(d.links.value)
    ensures Render(Some(d)).linkTarget == d.links.value[0].url
    ensures forall b :: b in Render(Some(d)).linkButtons ==> b.target != d.links.value[0].url
  {
    HiddenHasNoButton(d.links.value, 0);
  }

  /** The public page shows the same list buttons as the dashboard preview
      of the same lists. Both pages render their lists with `LinkButtons` and
      `ShopButtons`, so this records that the two pages share one rendering
      rule rather than proving a separate property. */
  lemma SameButtonsAsPreview(d: PublicData, p: Dashboard.Profile)
    requires d.links.Some? && d.shops.Some?
    ensures Render(Some(d)).linkButtons == Dashboard.PreviewOf(p, d.links.value, d.shops.value).linkButtons
    ensures Render(Some(d)).shopButtons == Dashboard.PreviewOf(p, d.links.value, d.shops.value).shopButtons
  {
  }
}
