/** The handlers composed with the shared client's response interceptor.
    The interceptor replaces every failure by a fresh `Error` without a
    response, so through the real client every branch a handler takes on
    `error.response` is its no-response branch: the status survives only
    as text inside the message. */
module Composition {
  import opened Wrappers
  import opened Strings
  import opened Json
  import opened Http
  import opened ApiClient
  import Legosets
  import Inventories
  import Themes
  import Users
  import MyAccount

  /** Through the interceptor, legoset_retrieve never reports a missing
      set, even for a 404: it quotes the normalized message, in which the
      status can still be read. */
  lemma RetrieveNeverNotFound(id: int, e: AxiosError)
    ensures var r := Legosets.Retrieve(id, Intercept(Rejected(e)));
            && r.envelope == Failed(Legosets.RetrievePrefix(id) + NormalizedMessage(e))
            && r.envelope.text != Legosets.NotFoundText(id)
            && StatusInMessage(r.envelope.text[|Legosets.RetrievePrefix(id)|..])
               == if e.response.Some? then Some(e.response.value.status) else None
  {
    var t := Intercept(Rejected(e)).thrown;
    Legosets.RetrieveNotFoundExactlyOn404(id, t);
    StatusSurvivesInMessage(e);
  }

  /** Through the interceptor, legoset_register always gives the generic
      text: neither the bad-request text of a 400 nor the import-failure
      text of a 500 can appear. */
  lemma RegisterAlwaysGeneric(id: int, e: AxiosError)
    ensures var r := Legosets.Register(id, Intercept(Rejected(e)));
            && r.envelope == Failed(Legosets.RegisterPrefix + NormalizedMessage(e))
            && r.envelope.text != Legosets.ImportFailedText
  {
    Legosets.ImportFailedExactlyOn500(Intercept(Rejected(e)).thrown);
  }

  /** Through the interceptor, the inventory and theme tools always show
      `Unknown` and the normalized message. */
  lemma BracketedToolsShowUnknown(e: AxiosError)
    ensures Inventories.Failure(Intercept(Rejected(e)).thrown) == BracketedText("Unknown", NormalizedMessage(e))
    ensures Themes.Failure(Intercept(Rejected(e)).thrown) == BracketedText("Unknown", NormalizedMessage(e))
  {
  }

  /** Through the interceptor, user_list shows the message, never the
      response body, and the account tools show the message bare. */
  lemma MessageOnlyTools(e: AxiosError)
    ensures Users.Failure(Intercept(Rejected(e)).thrown) == Users.FailurePrefix + NormalizedMessage(e)
    ensures MyAccount.FormatError(Intercept(Rejected(e)).thrown) == NormalizedMessage(e)
  {
  }

  /** The two bracketed formats agree whenever the theme label and the
      inventory detail fall back the same way: no response, or a nonzero
      status with a falsy body. */
  lemma ThemesAgreeWithInventories(t: Thrown)
    requires t.response.None? || (t.response.value.status != 0 && (Data(t).None? || !Truthy(Data(t).value)))
    ensures Themes.Failure(t) == Inventories.Failure(t)
  {
  }

  /** A zero status is where the two labels part: the inventory label is
      `0`, the theme label `Unknown`. */
  lemma ZeroStatusLabels(t: Thrown)
    requires Status(t) == Some(0)
    ensures Inventories.StatusLabel(t) == "0"
    ensures Themes.StatusLabel(t) == "Unknown"
  {
  }

  /** With the response kept on the thrown error, a 404 does reach the
      not-found text. */
  lemma KeptResponseReachesNotFound(id: int, e: AxiosError)
    requires e.response.Some? && e.response.value.status == 404
    ensures Legosets.Retrieve(id, InterceptKeepingResponse(Rejected(e))).envelope
            == Failed(Legosets.NotFoundText(id))
  {
  }

  /** With the response kept on the thrown error, a 500 does reach the
      import-failure text and a 400 the bad-request text. */
  lemma KeptResponseReachesRegisterTexts(id: int, e: AxiosError)
    requires e.response.Some?
    ensures e.response.value.status == 500 ==>
              Legosets.Register(id, InterceptKeepingResponse(Rejected(e))).envelope
              == Failed(Legosets.ImportFailedText)
    ensures e.response.value.status == 400 ==>
              StartsWith(Legosets.Register(id, InterceptKeepingResponse(Rejected(e))).envelope.text,
                         Legosets.BadRequestPrefix)
  {
    if e.response.value.status == 400 {
      Legosets.BadRequestShowsDetail(InterceptKeepingResponse(Rejected(e)).thrown);
    }
  }
}
