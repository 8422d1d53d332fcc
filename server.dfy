/** The interaction handler of `router.post('/')` (src/server.js:58-324). The signature
    check, the random code and the role-grant PUT are inputs: whether the request's
    signature verified, the code the command step minted, and whether the PUT succeeded. */
module Server {
  import opened Wrappers
  import opened Strings

  /** `InteractionType` values of discord-interactions. */
  const PING := 1
  const APPLICATION_COMMAND := 2
  const MESSAGE_COMPONENT := 3
  const MODAL_SUBMIT := 5

  /** `InteractionResponseFlags.EPHEMERAL`: visible to the invoking user only. */
  const EPHEMERAL := 64

  /** The Club 100 Members role. */
  const CLUB_ROLE_ID := "1149357829162020955"

  const INSTRUCTIONS := "Please add this random string into a PR comment: hte5au4a336a"
  const BUTTON_LABEL := "Copied, pasted, and done."
  const BUTTON_TAG := "commented"
  const MODAL_TITLE := "Your Club 100 Entry Ticket"
  const MODAL_ID := "club_modal"
  const FIELD_TAG := "url"
  const FIELD_LABEL := "URL of the PR you just commented"
  const FIELD_PLACEHOLDER := "https://github.com/"
  const GRANT_FAILED := "Sorry, that did not work."
  const WELCOME := "You're in!  You can now close this modal and wait for your invite."
  /** The reply after the TODO at src/server.js:311-319, which no path reaches. */
  const NOT_A_VALID_PR := "Sorry, that's not a valid PR.  Please try again with a valid PR."
  const BAD_SIGNATURE := "Bad request signature."
  const UNKNOWN_TYPE := "Unknown Type"

  /** A submitted text field: its `custom_id` and `value`. */
  datatype Field = Field(customId: string, value: string)

  /** The parts of an interaction the handler reads: `type`, `data.custom_id` (a clicked
      component), `data.components` (the action rows of a submitted modal),
      `member.user.id` and `guild_id`. */
  datatype Interaction = Interaction(kind: int, customId: string, rows: seq<seq<Field>>, userId: string, guildId: string)

  /** A button (component type 2) in the message's single action row. */
  datatype Button = Button(caption: string, style: int, customId: string)

  /** A text input (component type 4) in the modal's single action row. */
  datatype TextInput = TextInput(customId: string, caption: string, style: int, minLength: int, maxLength: int,
                                 placeholder: string, required: bool)

  /** The response bodies: `PONG`, `CHANNEL_MESSAGE_WITH_SOURCE`, `MODAL`, the JSON error
      object and the plain-text rejection. */
  datatype Payload =
    | Pong
    | ChannelMessage(content: string, buttons: seq<Button>, flags: int)
    | Modal(title: string, customId: string, inputs: seq<TextInput>)
    | ErrorJson(error: string)
    | PlainText(text: string)

  /** The `addGuildMemberRole(guildId, userId, roleId, token)` call. */
  datatype RoleGrant = RoleGrant(guildId: string, userId: string, roleId: string)

  /** The HTTP status, the body, and the role grant attempted on the way (if any). */
  datatype Reply = Reply(status: int, payload: Payload, grant: Option<RoleGrant>)

  /** What the submission step extracts (src/server.js:276-280). */
  datatype Submission = Submission(url: string, code: Option<string>, userId: string, guildId: string)

  /** `Math.random().toString(36).substring(2, 15)`: at most 13 lower-case base-36 digits. */
  predicate IsMintedId(id: string)
  {
    |id| <= 13 && forall i :: 0 <= i < |id| ==> '0' <= id[i] <= '9' || 'a' <= id[i] <= 'z'
  }

  /** A modal submission carries a first field in its first action row. */
  predicate HasSubmittedField(i: Interaction)
  {
    |i.rows| > 0 && |i.rows[0]| > 0
  }

  /** The button's custom id: `'commented.' + id`. */
  function ButtonCustomId(id: string): string
  {
    BUTTON_TAG + "." + id
  }

  /** The text field's custom id: `'url.' + buttonId.split('.')[1]`. */
  function FieldCustomId(buttonId: string): string
  {
    FIELD_TAG + "." + JsString(SecondSegment(buttonId))
  }

  function CommandReply(id: string): Reply
  {
    Reply(200, ChannelMessage(INSTRUCTIONS, [Button(BUTTON_LABEL, 1, ButtonCustomId(id))], EPHEMERAL), None)
  }

  function ComponentReply(buttonId: string): Reply
  {
    Reply(200, Modal(MODAL_TITLE, MODAL_ID,
                     [TextInput(FieldCustomId(buttonId), FIELD_LABEL, 1, 1, 4000, FIELD_PLACEHOLDER, true)]), None)
  }

  function ExtractSubmission(i: Interaction): Submission
    requires HasSubmittedField(i)
  {
    var f := i.rows[0][0];
    Submission(f.value, SecondSegment(f.customId), i.userId, i.guildId)
  }

  /** The role is granted without checking the submitted link; the reply reports
      whether the grant went through. */
  function ModalSubmitReply(i: Interaction, grantSucceeds: bool): Reply
    requires HasSubmittedField(i)
  {
    var s := ExtractSubmission(i);
    var grant := RoleGrant(s.guildId, s.userId, CLUB_ROLE_ID);
    if grantSucceeds then Reply(200, ChannelMessage(WELCOME, [], EPHEMERAL), Some(grant))
    else Reply(200, ChannelMessage(GRANT_FAILED, [], EPHEMERAL), Some(grant))
  }

  /** The POST handler. `isValid` and `interaction` are what signature verification
      returns (`None` for a missing interaction); the role is only ever granted on a
      modal submission, and the status is 200 exactly for a verified request of one of
      the four handled types. */
  function HandlePost(isValid: bool, interaction: Option<Interaction>, mintedId: string, grantSucceeds: bool): (r: Reply)
    requires IsMintedId(mintedId)
    requires isValid && interaction.Some? && interaction.value.kind == MODAL_SUBMIT ==> HasSubmittedField(interaction.value)
    ensures r.grant.Some? <==> isValid && interaction.Some? && interaction.value.kind == MODAL_SUBMIT
    ensures r.grant.Some? ==> r.grant.value.roleId == CLUB_ROLE_ID
    ensures r.status == 200 <==>
      isValid && interaction.Some? && interaction.value.kind in {PING, APPLICATION_COMMAND, MESSAGE_COMPONENT, MODAL_SUBMIT}
  {
    if !isValid || interaction.None? then Reply(401, PlainText(BAD_SIGNATURE), None)
    else
      var i := interaction.value;
      if i.kind == PING then Reply(200, Pong, None)
      else if i.kind == APPLICATION_COMMAND then CommandReply(mintedId)
      else if i.kind == MESSAGE_COMPONENT then ComponentReply(i.customId)
      else if i.kind == MODAL_SUBMIT then ModalSubmitReply(i, grantSucceeds)
      else Reply(400, ErrorJson(UNKNOWN_TYPE), None)
  }

  /** A request whose signature does not verify is refused before any dispatch. */
  lemma BadSignatureRefused(interaction: Option<Interaction>, mintedId: string, grantSucceeds: bool)
    requires IsMintedId(mintedId)
    ensures HandlePost(false, interaction, mintedId, grantSucceeds) == Reply(401, PlainText(BAD_SIGNATURE), None)
  {
  }

  /** PING is answered with PONG alone, whatever else the interaction carries. */
  lemma PingPongs(i: Interaction, mintedId: string, grantSucceeds: bool)
    requires IsMintedId(mintedId) && i.kind == PING
    ensures HandlePost(true, Some(i), mintedId, grantSucceeds) == Reply(200, Pong, None)
  {
  }

  /** A command gets an ephemeral message with one button whose custom id is exactly
      `commented.<id>`, from which the id can be read back as the second segment; the
      displayed text is the same whatever id was minted. */
  lemma CommandOffersButton(i: Interaction, mintedId: string, otherId: string, grantSucceeds: bool)
    requires IsMintedId(mintedId) && IsMintedId(otherId) && i.kind == APPLICATION_COMMAND
    ensures var r := HandlePost(true, Some(i), mintedId, grantSucceeds);
      && r.status == 200 && r.grant.None?
      && r.payload.ChannelMessage? && r.payload.flags == EPHEMERAL
      && |r.payload.buttons| == 1
      && r.payload.buttons[0].customId == "commented." + mintedId
      && SecondSegment(r.payload.buttons[0].customId) == Some(mintedId)
      && r.payload.content == HandlePost(true, Some(i), otherId, grantSucceeds).payload.content
  {
    MintedIdHasNoDot(mintedId);
    TaggedSecondSegment(BUTTON_TAG, mintedId);
  }

  /** A component click gets the entry-ticket modal with one required text field whose
      custom id re-tags the second segment of the clicked component's id with `url.`
      (JavaScript's "undefined" when that id has no dot). */
  lemma ComponentShowsModal(i: Interaction, mintedId: string, grantSucceeds: bool)
    requires IsMintedId(mintedId) && i.kind == MESSAGE_COMPONENT
    ensures var r := HandlePost(true, Some(i), mintedId, grantSucceeds);
      && r.status == 200 && r.grant.None?
      && r.payload.Modal? && r.payload.title == MODAL_TITLE && r.payload.customId == MODAL_ID
      && |r.payload.inputs| == 1
      && r.payload.inputs[0].minLength == 1 && r.payload.inputs[0].maxLength == 4000
      && r.payload.inputs[0].required
      && (SecondSegment(i.customId).Some? <==> '.' in i.customId)
      && r.payload.inputs[0].customId ==
           "url." + (if '.' in i.customId then SecondSegment(i.customId).value else "undefined")
  {
    SecondSegmentNeedsDot(i.customId);
  }

  lemma MintedIdHasNoDot(id: string)
    requires IsMintedId(id)
    ensures '.' !in id
  {
  }

  /** The code survives the dialog: the command's button id, clicked, yields the field
      id `url.<id>`, and submitting that field hands back exactly the minted id. */
  lemma DialogRoundTrip(command: Interaction, click: Interaction, submit: Interaction,
                        mintedId: string, otherId: string, grantSucceeds: bool)
    requires IsMintedId(mintedId) && IsMintedId(otherId)
    requires command.kind == APPLICATION_COMMAND
    requires click.kind == MESSAGE_COMPONENT
    requires click.customId == HandlePost(true, Some(command), mintedId, grantSucceeds).payload.buttons[0].customId
    requires submit.kind == MODAL_SUBMIT && HasSubmittedField(submit)
    requires submit.rows[0][0].customId == HandlePost(true, Some(click), otherId, grantSucceeds).payload.inputs[0].customId
    ensures click.customId == "commented." + mintedId
    ensures submit.rows[0][0].customId == "url." + mintedId
    ensures ExtractSubmission(submit).code == Some(mintedId)
  {
    MintedIdHasNoDot(mintedId);
    TaggedSecondSegment(BUTTON_TAG, mintedId);
    TaggedSecondSegment(FIELD_TAG, mintedId);
  }

  /** A modal submission grants the club role to the submitting member in their guild,
      and answers whether that worked; it never answers "not a valid PR". */
  lemma SubmitGrantsRole(i: Interaction, mintedId: string, grantSucceeds: bool)
    requires IsMintedId(mintedId) && i.kind == MODAL_SUBMIT && HasSubmittedField(i)
    ensures var r := HandlePost(true, Some(i), mintedId, grantSucceeds);
      && r.status == 200
      && r.grant == Some(RoleGrant(i.guildId, i.userId, CLUB_ROLE_ID))
      && r.payload.ChannelMessage? && r.payload.flags == EPHEMERAL && r.payload.buttons == []
      && r.payload.content == (if grantSucceeds then WELCOME else GRANT_FAILED)
      && r.payload.content != NOT_A_VALID_PR
  {
    assert |WELCOME| != |NOT_A_VALID_PR| && |GRANT_FAILED| != |NOT_A_VALID_PR|;
  }

  /** The submitted link and code play no part in the reply: two submissions by the same
      member in the same guild are answered alike. */
  lemma SubmitIgnoresLink(i: Interaction, j: Interaction, mintedId: string, grantSucceeds: bool)
    requires IsMintedId(mintedId)
    requires i.kind == MODAL_SUBMIT && HasSubmittedField(i)
    requires j.kind == MODAL_SUBMIT && HasSubmittedField(j)
    requires i.userId == j.userId && i.guildId == j.guildId
    ensures HandlePost(true, Some(i), mintedId, grantSucceeds) == HandlePost(true, Some(j), mintedId, grantSucceeds)
  {
  }

  /** Any other interaction type is a 400 with the "Unknown Type" error and no grant. */
  lemma UnknownTypeRejected(i: Interaction, mintedId: string, grantSucceeds: bool)
    requires IsMintedId(mintedId) && i.kind !in {PING, APPLICATION_COMMAND, MESSAGE_COMPONENT, MODAL_SUBMIT}
    ensures HandlePost(true, Some(i), mintedId, grantSucceeds) == Reply(400, ErrorJson(UNKNOWN_TYPE), None)
  {
  }
}
