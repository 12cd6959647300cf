/**
 * `MagicLinkButton`: an administrator generates a one-off password-reset link for a member
 * and copies it to the clipboard. The token comes from the `generate_magic_link_token` RPC,
 * whose internals are not part of this model; its answer is a parameter.
 */
module MagicLink {
  import opened Wrappers
  import opened Effects
  import opened Text

  const ResetPathQuery := "/reset-password?token="
  const CopiedResetMs := 3000

  const GeneratedToast := Toast(Info, "Magic Link Generated", "The password reset link has been generated. Click copy to share it.")
  const CopiedToast := Toast(Info, "Link Copied", "Password reset link has been copied to clipboard")
  const CopyFailedToast := Toast(Destructive, "Copy Failed", "Failed to copy link to clipboard")

  /** How the RPC ends: an error (returned or thrown, both reach the `catch`), or a token, possibly null. */
  datatype TokenReply = TokenFailed(error: Failure) | Generated(token: Option<string>)

  datatype ButtonState = ButtonState(isGenerating: bool, isCopied: bool, magicLink: Option<string>)

  /** The template literal: a null token is rendered as the text "null". */
  function LinkFor(origin: string, token: Option<string>): (link: string)
    ensures |link| >= |origin + ResetPathQuery|
    ensures link[..|origin|] == origin && link[|origin|..|origin + ResetPathQuery|] == ResetPathQuery
  {
    origin + ResetPathQuery + token.GetOr("null")
  }

  /** The token a link carries, for a known origin. */
  function TokenOf(link: string, origin: string): string
    requires |link| >= |origin + ResetPathQuery|
  {
    link[|origin + ResetPathQuery|..]
  }

  /** The link carries the token unchanged after the fixed origin and path. */
  lemma LinkRoundTrip(origin: string, token: string)
    ensures TokenOf(LinkFor(origin, Some(token)), origin) == token
  {
    assert LinkFor(origin, Some(token)) == (origin + ResetPathQuery) + token;
  }

  /** `generateMagicLink()`: the state after it and its effects. */
  function AfterGenerate(s: ButtonState, memberNumber: string, origin: string, reply: TokenReply): (ButtonState, seq<Effect>) {
    var call := [Backend(GenerateMagicLinkToken(memberNumber))];
    match reply
    case TokenFailed(error) =>
      (s.(isGenerating := false), call + [Toast(Destructive, "Error Generating Link", error.message)])
    case Generated(token) =>
      (s.(isGenerating := false, magicLink := Some(LinkFor(origin, token))), call + [GeneratedToast])
  }

  /**
   * Every generation asks the RPC once for this member and ends with `isGenerating` false
   * and one toast. A success stores the link built from the origin and the token; a
   * failure keeps the previous link and reports the error's message. `isCopied` is untouched.
   */
  lemma GenerationOutcome(s: ButtonState, memberNumber: string, origin: string, reply: TokenReply)
    ensures var (r, effects) := AfterGenerate(s, memberNumber, origin, reply);
      && !r.isGenerating && r.isCopied == s.isCopied
      && |effects| == 2 && effects[0] == Backend(GenerateMagicLinkToken(memberNumber)) && effects[1].Toast?
      && (reply.TokenFailed? ==> r.magicLink == s.magicLink && effects[1] == Toast(Destructive, "Error Generating Link", reply.error.message))
      && (reply.Generated? ==> r.magicLink == Some(LinkFor(origin, reply.token)) && effects[1] == GeneratedToast)
  {
  }

  /** `copyToClipboard()`, given whether the clipboard write succeeds. */
  function AfterCopy(s: ButtonState, clipboardOk: bool): (ButtonState, seq<Effect>) {
    if s.magicLink.None? || !Truthy(s.magicLink.value) then (s, [])
    else
      var write := [WriteClipboard(s.magicLink.value)];
      if clipboardOk then (s.(isCopied := true), write + [CopiedToast, StartTimer(CopiedResetMs)])
      else (s, write + [CopyFailedToast])
  }

  /**
   * Without a link, copying does nothing. With one, the link is written to the clipboard; a
   * successful write sets `isCopied` and starts the 3000 ms timer that clears it, a failed one
   * only shows the error toast. The link and `isGenerating` never change.
   */
  lemma CopyOutcome(s: ButtonState, clipboardOk: bool)
    ensures var (r, effects) := AfterCopy(s, clipboardOk);
      && (s.magicLink.None? ==> r == s && effects == [])
      && r.magicLink == s.magicLink && r.isGenerating == s.isGenerating
      && (s.magicLink.Some? && s.magicLink.value != "" ==>
            effects[0] == WriteClipboard(s.magicLink.value)
            && (clipboardOk ==> r.isCopied && StartTimer(CopiedResetMs) in effects)
            && (!clipboardOk ==> r == s && effects == [WriteClipboard(s.magicLink.value), CopyFailedToast]))
  {
  }

  /** A generated link is never empty, so copying it always reaches the clipboard. */
  lemma GeneratedLinkCanBeCopied(s: ButtonState, memberNumber: string, origin: string, token: Option<string>, clipboardOk: bool)
    ensures var (r, _) := AfterGenerate(s, memberNumber, origin, Generated(token));
      var (_, effects) := AfterCopy(r, clipboardOk);
      effects != [] && effects[0] == WriteClipboard(LinkFor(origin, token))
  {
  }

  /** The button shown. */
  datatype Button = GenerateButton(disabled: bool, spinning: bool) | CopyButton(copied: bool)

  /** The generate button while there is no link (disabled and spinning while generating), the copy button after. */
  function ButtonOf(s: ButtonState): (b: Button)
    ensures b.GenerateButton? <==> s.magicLink.None? || s.magicLink.value == ""
    ensures b.GenerateButton? ==> b.disabled == s.isGenerating
    ensures b.CopyButton? ==> b.copied == s.isCopied
  {
    if s.magicLink.None? || !Truthy(s.magicLink.value) then GenerateButton(s.isGenerating, s.isGenerating)
    else CopyButton(s.isCopied)
  }

  /** The component's state as fields, with the effects performed so far. */
  class Component {
    var isGenerating: bool
    var isCopied: bool
    var magicLink: Option<string>
    var trace: seq<Effect>

    function State(): ButtonState
      reads this
    {
      ButtonState(isGenerating, isCopied, magicLink)
    }

    constructor ()
      ensures State() == ButtonState(false, false, None) && trace == []
    {
      isGenerating := false;
      isCopied := false;
      magicLink := None;
      trace := [];
    }

    /** `generateMagicLink()` for a member, with the page origin and the RPC's answer. */
    method Generate(memberNumber: string, origin: string, reply: TokenReply)
      modifies this
      ensures var (after, effects) := AfterGenerate(old(State()), memberNumber, origin, reply);
        State() == after && trace == old(trace) + effects
    {
      isGenerating := true;
      trace := trace + [Backend(GenerateMagicLinkToken(memberNumber))];
      match reply {
        case TokenFailed(error) =>
          trace := trace + [Toast(Destructive, "Error Generating Link", error.message)];
        case Generated(token) =>
          magicLink := Some(LinkFor(origin, token));
          trace := trace + [GeneratedToast];
      }
      isGenerating := false;
    }

    /** `copyToClipboard()`, given whether the clipboard write succeeds. */
    method CopyToClipboard(clipboardOk: bool)
      modifies this
      ensures var (after, effects) := AfterCopy(old(State()), clipboardOk);
        State() == after && trace == old(trace) + effects
    {
      if magicLink.None? || !Truthy(magicLink.value) {
        return;
      }
      trace := trace + [WriteClipboard(magicLink.value)];
      if clipboardOk {
        isCopied := true;
        trace := trace + [CopiedToast, StartTimer(CopiedResetMs)];
      } else {
        trace := trace + [CopyFailedToast];
      }
    }

    /** The 3000 ms timer's callback: `setIsCopied(false)`. */
    method CopiedTimerFires()
      modifies this
      ensures State() == old(State()).(isCopied := false) && trace == old(trace)
    {
      isCopied := false;
    }
  }
}
