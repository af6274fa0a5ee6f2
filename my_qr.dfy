/** src/screens/MyQrScreen.tsx: the public menu URL of the restaurant, the
    copy and share actions that need it, and the `alive` flag that stops a
    late answer from updating an unmounted screen. */
module MyQr {
  import opened Wrappers

  datatype Restaurant = Restaurant(id: string, name: string, description: Option<string>, isOpen: bool)

  const WebUrl: string := "https://cardapiopro-web.vercel.app"
  const MenuPath: string := "/m/"

  /** `menuUrl`: "" without a restaurant id, else the web app's `/m/{id}` page. */
  function MenuUrl(restaurant: Option<Restaurant>): (url: string)
    ensures restaurant.None? || restaurant.value.id == "" ==> url == ""
    ensures restaurant.Some? && restaurant.value.id != "" ==>
      |url| > |WebUrl + MenuPath| &&
      url[..|WebUrl + MenuPath|] == WebUrl + MenuPath && url[|WebUrl + MenuPath|..] == restaurant.value.id
  {
    if restaurant.None? || restaurant.value.id == "" then ""
    else WebUrl + MenuPath + restaurant.value.id
  }

  /** The restaurant id read back from a menu URL. */
  function MenuId(url: string): Option<string> {
    var prefix := WebUrl + MenuPath;
    if |url| > |prefix| && url[..|prefix|] == prefix then Some(url[|prefix|..]) else None
  }

  /** A URL exists exactly when there is a restaurant id, and it leads back to that id. */
  lemma MenuUrlRoundTrip(restaurant: Option<Restaurant>)
    ensures MenuUrl(restaurant) != "" <==> restaurant.Some? && restaurant.value.id != ""
    ensures MenuUrl(restaurant) != "" ==> MenuId(MenuUrl(restaurant)) == Some(restaurant.value.id)
  {
  }

  class QrScreen {
    var restaurant: Option<Restaurant>
    var loading: bool
    /** The effect's local `alive`: false once the screen unmounted. */
    var alive: bool
    ghost var copied: seq<string>
    ghost var shared: seq<string>
    ghost var messages: nat

    /** Mounting runs `load`, which sets `loading` before its await. */
    constructor ()
      ensures restaurant == None && loading && alive
      ensures copied == [] && shared == [] && messages == 0
    {
      restaurant := None;
      loading := true;
      alive := true;
      copied := [];
      shared := [];
      messages := 0;
    }

    /** The effect's cleanup. */
    method Unmount()
      modifies this`alive
      ensures !alive
    {
      alive := false;
    }

    /** `load` once `getMyRestaurant()` settled: nothing at all happens after
        unmount; otherwise the restaurant (or null, with a message) is set
        and loading ends. */
    method EndLoad(fetched: Result<Restaurant>)
      modifies this`restaurant, this`loading, this`messages
      ensures !alive ==> restaurant == old(restaurant) && loading == old(loading) && messages == old(messages)
      ensures alive ==> !loading
      ensures alive && fetched.Ok? ==> restaurant == Some(fetched.value) && messages == old(messages)
      ensures alive && fetched.Err? ==> restaurant == None && messages == old(messages) + 1
    {
      if !alive {
        return;
      }
      match fetched {
        case Ok(data) => restaurant := Some(data);
        case Err(_) =>
          messages := messages + 1;
          restaurant := None;
      }
      loading := false;
    }

    /** `copyLink`: nothing without a URL; else the URL goes to the clipboard
        and, once the clipboard has accepted it, a confirmation is shown. A
        clipboard that rejects the write leaves the promise unhandled: no
        copy and no message. */
    method CopyLink(copyOk: bool)
      modifies this`copied, this`messages
      ensures MenuUrl(restaurant) == "" || !copyOk ==> copied == old(copied) && messages == old(messages)
      ensures MenuUrl(restaurant) != "" && copyOk ==>
        copied == old(copied) + [MenuUrl(restaurant)] && messages == old(messages) + 1
    {
      var url := MenuUrl(restaurant);
      if url == "" || !copyOk {
        return;
      }
      copied := copied + [url];
      messages := messages + 1;
    }

    /** `shareLink`: nothing without a URL; else the share sheet gets the
        message with the URL, and a failure shows an error. */
    method ShareLink(shareOk: bool)
      modifies this`shared, this`messages
      ensures MenuUrl(restaurant) == "" ==> shared == old(shared) && messages == old(messages)
      ensures MenuUrl(restaurant) != "" ==>
        shared == old(shared) + ["Meu cardápio: " + MenuUrl(restaurant)]
        && messages == old(messages) + (if shareOk then 0 else 1)
    {
      var url := MenuUrl(restaurant);
      if url == "" {
        return;
      }
      shared := shared + ["Meu cardápio: " + url];
      if !shareOk {
        messages := messages + 1;
      }
    }
  }
}
