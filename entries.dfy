/** The link and shop lists of a profile and the pure transforms the
    dashboard and the public page apply to them. */
module Entries {
  import opened Wrappers
  import opened Strings

  /** One entry of the `links` or `shops` list of a profile. */
  datatype LinkEntry = LinkEntry(url: string, visible: bool)

  /** The draft a modal starts with and is reset to after a successful add. */
  const Blank := LinkEntry("", true)

  /** `list.filter(l => l.visible)`. */
  function Visible(s: seq<LinkEntry>): (r: seq<LinkEntry>)
    ensures |r| <= |s|
    ensures forall e :: e in r <==> e in s && e.visible
  {
    if s == [] then [] else (if s[0].visible then [s[0]] else []) + Visible(s[1..])
  }

  /** The filter distributes over concatenation, so it keeps the visible
      entries in their original order. */
  lemma {:induction false} VisibleAppend(a: seq<LinkEntry>, b: seq<LinkEntry>)
    ensures Visible(a + b) == Visible(a) + Visible(b)
  {
    if a == [] {
      assert a + b == b;
    } else {
      assert (a + b)[1..] == a[1..] + b;
      VisibleAppend(a[1..], b);
    }
  }

  /** The filter changes nothing exactly when every entry is visible. */
  lemma {:induction false} VisibleIdentity(s: seq<LinkEntry>)
    ensures Visible(s) == s <==> forall i :: 0 <= i < |s| ==> s[i].visible
  {
    if s != [] {
      VisibleIdentity(s[1..]);
      if !s[0].visible {
        assert |Visible(s)| < |s|;
      }
    }
  }

  /** `list.map((l, i) => i === idx ? { ...l, visible: checked } : l)`. */
  function SetVisibility(s: seq<LinkEntry>, idx: int, checked: bool): (r: seq<LinkEntry>)
    ensures |r| == |s|
    ensures forall i :: 0 <= i < |s| ==> r[i].url == s[i].url
    ensures forall i :: 0 <= i < |s| && i != idx ==> r[i] == s[i]
    ensures 0 <= idx < |s| ==> r[idx].visible == checked
  {
    seq(|s|, i requires 0 <= i < |s| => if i == idx then s[i].(visible := checked) else s[i])
  }

  /** After setting the flag of entry `idx`, the visible entries are those
      before it, then the entry itself exactly when `checked`, then those
      after it. */
  lemma VisibleAfterSetVisibility(s: seq<LinkEntry>, idx: int, checked: bool)
    requires 0 <= idx < |s|
    ensures Visible(SetVisibility(s, idx, checked))
         == Visible(s[..idx]) + (if checked then [s[idx].(visible := true)] else []) + Visible(s[idx + 1..])
  {
    var r := SetVisibility(s, idx, checked);
    assert r == r[..idx] + [r[idx]] + r[idx + 1..];
    assert r[..idx] == s[..idx];
    assert r[idx + 1..] == s[idx + 1..];
    VisibleAppend(r[..idx] + [r[idx]], r[idx + 1..]);
    VisibleAppend(r[..idx], [r[idx]]);
    assert Visible([r[idx]]) == (if checked then [r[idx]] else []) by {
      assert [r[idx]][1..] == [];
    }
  }

  /** `list.filter((_, i) => i !== idx)`: each element is kept unless its
      position is `idx`. */
  function RemoveAt(s: seq<LinkEntry>, idx: int): (r: seq<LinkEntry>)
    ensures 0 <= idx < |s| ==> r == s[..idx] + s[idx + 1..]
    ensures !(0 <= idx < |s|) ==> r == s
  {
    if s == [] then []
    else
      var rest := RemoveAt(s[1..], idx - 1);
      if idx == 0 then
        rest
      else
        assert 0 < idx < |s| ==> s[..idx] + s[idx + 1..] == [s[0]] + (s[1..][..idx - 1] + s[1..][idx..]);
        [s[0]] + rest
  }

  /** `list.some(l => l.url === url)`. */
  predicate HasUrl(s: seq<LinkEntry>, url: string)
  {
    exists i | 0 <= i < |s| :: s[i].url == url
  }

  /** No two entries of the list share a URL. */
  ghost predicate UniqueUrls(s: seq<LinkEntry>)
  {
    forall i, j :: 0 <= i < j < |s| ==> s[i].url != s[j].url
  }

  /** Why adding an entry was refused. */
  datatype AddError = InvalidUrl | DuplicateUrl

  /** The checks `addLink` and `addShop` make before saving, and the list
      they save when both pass. `isValidUrl` stands for `new URL(url)`
      not throwing. */
  function CheckAdd(s: seq<LinkEntry>, draft: LinkEntry, isValidUrl: string -> bool): (r: Result<seq<LinkEntry>, AddError>)
    ensures r == Failure(InvalidUrl) <==> draft.url == "" || !isValidUrl(draft.url)
    ensures r == Failure(DuplicateUrl) <==>
      draft.url != "" && isValidUrl(draft.url) && exists i :: 0 <= i < |s| && s[i].url == draft.url
    ensures r.Success? ==> |r.value| == |s| + 1 && r.value[..|s|] == s && r.value[|s|] == draft
  {
    if draft.url == "" || !isValidUrl(draft.url) then Failure(InvalidUrl)
    else if HasUrl(s, draft.url) then Failure(DuplicateUrl)
    else Success(s + [draft])
  }

  /** A successful add keeps the URLs of the list distinct. */
  lemma CheckAddKeepsUnique(s: seq<LinkEntry>, draft: LinkEntry, isValidUrl: string -> bool)
    requires UniqueUrls(s)
    requires CheckAdd(s, draft, isValidUrl).Success?
    ensures UniqueUrls(CheckAdd(s, draft, isValidUrl).value)
  {
    var r := CheckAdd(s, draft, isValidUrl).value;
    forall i, j | 0 <= i < j < |r| ensures r[i].url != r[j].url {
      if j == |s| {
        assert r[i] == s[i];
      } else {
        assert r[i] == s[i] && r[j] == s[j];
      }
    }
  }

  /** Removing an entry keeps the URLs of the list distinct. */
  lemma RemoveAtKeepsUnique(s: seq<LinkEntry>, idx: int)
    requires UniqueUrls(s)
    ensures UniqueUrls(RemoveAt(s, idx))
  {
    if 0 <= idx < |s| {
      var r := RemoveAt(s, idx);
      forall i, j | 0 <= i < j < |r| ensures r[i].url != r[j].url {
        var i' := if i < idx then i else i + 1;
        var j' := if j < idx then j else j + 1;
        assert r[i] == s[i'] && r[j] == s[j'];
      }
    }
  }

  /** A button of the preview or of the public page. */
  datatype Button = Button(caption: string, target: string)

  /** One button per visible link, in order, labelled with the part of its
      URL after the last `/` (`link.url.split('/').pop()`). */
  function LinkButtons(s: seq<LinkEntry>): (r: seq<Button>)
    ensures |r| == |Visible(s)|
    ensures forall i :: 0 <= i < |r| ==>
      r[i].target == Visible(s)[i].url && '/' !in r[i].caption && |r[i].caption| <= |r[i].target| &&
      r[i].caption == r[i].target[|r[i].target| - |r[i].caption|..] &&
      (|r[i].caption| < |r[i].target| ==> r[i].target[|r[i].target| - |r[i].caption| - 1] == '/')
  {
    var v := Visible(s);
    seq(|v|, i requires 0 <= i < |v| => Button(LastSegment(v[i].url), v[i].url))
  }

  /** With distinct URLs, a hidden entry's URL is the target of no button. */
  lemma HiddenHasNoButton(s: seq<LinkEntry>, k: int)
    requires UniqueUrls(s) && 0 <= k < |s| && !s[k].visible
    ensures forall b :: b in LinkButtons(s) ==> b.target != s[k].url
  {
    var buttons := LinkButtons(s);
    var v := Visible(s);
    forall b | b in buttons ensures b.target != s[k].url {
      var i :| 0 <= i < |buttons| && buttons[i] == b;
      assert v[i] in v;
      var j :| 0 <= j < |s| && s[j] == v[i];
      assert j != k;
      if j < k {
        assert s[j].url != s[k].url;
      } else {
        assert s[k].url != s[j].url;
      }
    }
  }

  const BuyNow := "Buy Now"

  /** One "Buy Now" button per visible shop, in order. */
  function ShopButtons(s: seq<LinkEntry>): (r: seq<Button>)
    ensures |r| == |Visible(s)|
    ensures forall i :: 0 <= i < |r| ==> r[i] == Button(BuyNow, Visible(s)[i].url)
  {
    var v := Visible(s);
    seq(|v|, i requires 0 <= i < |v| => Button(BuyNow, v[i].url))
  }

  /** An image or icon URL as rendered: an empty one is not rendered. */
  function NonEmpty(s: string): (r: Option<string>)
    ensures r.None? <==> s == ""
    ensures r.Some? ==> r.value == s
  {
    if s == "" then None else Some(s)
  }

  /** `list?.[0]?.url || ''`. */
  function FirstUrl(s: Option<seq<LinkEntry>>): (u: string)
    ensures s.Some? && s.value != [] ==> u == s.value[0].url
    ensures s.None? || s.value == [] ==> u == ""
  {
    match s
    case None => ""
    case Some(list) => if list == [] then "" else list[0].url
  }
}
