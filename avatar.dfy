/**
 * The avatar handlers of app/api/avatar/route.ts over a process-wide
 * dictionary from email to avatar path: POST sets one entry, GET looks one
 * up. The dictionary lives only as long as the process.
 */
module Avatar {
  import opened Options

  datatype Body = Error(error: string) | Saved | AvatarOf(avatar: Option<string>)

  datatype Response = Json(status: nat, body: Body)

  /** A POST body: JSON that did not parse, or the two fields it may carry. */
  datatype PostBody = Malformed | Parsed(email: Option<string>, avatar: Option<string>)

  const MethodNotAllowed: string := "Method not allowed"
  const AvatarRequired: string := "ایمیل و آواتار الزامی است."
  const AvatarInvalidRequest: string := "درخواست نامعتبر"
  const AvatarEmailMissing: string := "ایمیل ارسال نشده است."

  class AvatarRegistry {
    var avatars: map<string, string>

    /** POST never stores an empty path. */
    ghost predicate Valid()
      reads this
    {
      forall e :: e in avatars ==> avatars[e] != ""
    }

    constructor ()
      ensures Valid() && avatars == map[]
    {
      avatars := map[];
    }

    /** POST: validate the body, then overwrite the entry for its email. */
    method Post(httpMethod: string, body: PostBody) returns (r: Response)
      requires Valid()
      modifies this
      ensures Valid()
      ensures httpMethod != "POST" ==> r == Json(405, Error(MethodNotAllowed)) && avatars == old(avatars)
      ensures httpMethod == "POST" && body.Malformed? ==>
        r == Json(400, Error(AvatarInvalidRequest)) && avatars == old(avatars)
      ensures httpMethod == "POST" && body.Parsed? && (IsBlank(body.email) || IsBlank(body.avatar)) ==>
        r == Json(400, Error(AvatarRequired)) && avatars == old(avatars)
      ensures httpMethod == "POST" && body.Parsed? && !IsBlank(body.email) && !IsBlank(body.avatar) ==>
        r == Json(200, Saved) && avatars == old(avatars)[body.email.value := body.avatar.value]
    {
      if httpMethod != "POST" {
        return Json(405, Error(MethodNotAllowed));
      }
      match body
      case Malformed =>
        r := Json(400, Error(AvatarInvalidRequest));
      case Parsed(email, avatar) =>
        if IsBlank(email) || IsBlank(avatar) {
          return Json(400, Error(AvatarRequired));
        }
        avatars := avatars[email.value := avatar.value];
        r := Json(200, Saved);
    }

    /**
     * GET: `userAvatars[email] || null`. In a valid registry the answer is
     * the stored path exactly, and null only for an email never posted.
     */
    function Get(email: Option<string>): (r: Response)
      reads this
      ensures IsBlank(email) ==> r == Json(400, Error(AvatarEmailMissing))
      ensures !IsBlank(email) ==> r.status == 200 && r.body.AvatarOf?
      ensures !IsBlank(email) && Valid() ==>
        r.body.avatar == (if email.value in avatars then Some(avatars[email.value]) else None)
    {
      if IsBlank(email) then
        Json(400, Error(AvatarEmailMissing))
      else if email.value in avatars && avatars[email.value] != "" then
        Json(200, AvatarOf(Some(avatars[email.value])))
      else
        Json(200, AvatarOf(None))
    }
  }

  /**
   * The module-level `globalThis._userAvatars ??= {}`: an existing registry
   * is reused, so every request shares one; a new, empty one is made only
   * when none exists yet.
   */
  method Shared(existing: AvatarRegistry?) returns (registry: AvatarRegistry)
    requires existing != null ==> existing.Valid()
    ensures registry.Valid()
    ensures existing != null ==> registry == existing
    ensures existing == null ==> fresh(registry) && registry.avatars == map[]
  {
    if existing == null {
      registry := new AvatarRegistry();
    } else {
      registry := existing;
    }
  }

  /** Last write wins: after two accepted POSTs for one email, GET returns the second path. */
  method LastWriteWins(registry: AvatarRegistry, email: string, first: string, second: string)
    returns (r: Response)
    requires registry.Valid() && email != "" && first != "" && second != ""
    modifies registry
    ensures registry.Valid()
    ensures r == Json(200, AvatarOf(Some(second)))
    ensures registry.avatars == old(registry.avatars)[email := second]
  {
    var _ := registry.Post("POST", Parsed(Some(email), Some(first)));
    var _ := registry.Post("POST", Parsed(Some(email), Some(second)));
    r := registry.Get(Some(email));
  }
}
