/** The `edit-room-image` edge function (supabase/functions/edit-room-image/index.ts):
    validate the request and the caller, number the new turns after the room's
    highest `edit_order`, append the user turn, have the provider generate the edited
    image, decode it, upload it as a blob, append the assistant turn and point the
    room at the new image. Each write either happens whole or fails with a message;
    nothing is rolled back when a later step fails. Store failures are injected as
    `Faults`, the caller's identity as `Auth`, the provider as `Provider`, the
    environment as `Env`. */
module EditPipeline {
  import opened Js
  import opened Base64
  import ResultDecoder
  import opened Poller

  /** `edit_type` of a `room_edits` row. */
  datatype EditType = UserEdit | AssistantEdit

  /** One row of the `room_edits` table. */
  datatype EditRow = EditRow(roomId: string, editType: EditType, description: string, imageUrl: string, editOrder: int)

  /** The part of the backend the function reads and writes: the `room_edits` table in
      insertion order, the `current_image_url` of every room, and the blobs of the
      `room-images` bucket by file name. */
  datatype StoreState = StoreState(edits: seq<EditRow>, rooms: map<string, string>, blobs: map<string, seq<byte>>)

  /** The assistant turn's description and the messages of the handler's own errors. */
  const SuccessText: string := "Image edited successfully"
  const KeyMissingText: string := "BFL_API_KEY not configured"
  const FieldsMissingText: string := "Missing roomId, userMessage or currentImageUrl"
  const UnauthorizedText: string := "Unauthorized"
  const NullBodyText: string := DestructureNull("roomId")

  /** What `atob` throws on text it cannot decode (the runtime's wording). */
  const DecodeErrorText: string := "Failed to decode base64"

  // ----- numbering -----

  /** The highest `edit_order` among the rows of `roomId`, what the query ordered by
      `edit_order` descending with limit 1 returns. */
  function MaxOrder(edits: seq<EditRow>, roomId: string): Option<int>
    decreases |edits|
  {
    if |edits| == 0 then None
    else
      var prev := MaxOrder(edits[..|edits| - 1], roomId);
      var last := edits[|edits| - 1];
      if last.roomId != roomId then prev
      else if prev.Some? && prev.value >= last.editOrder then prev
      else Some(last.editOrder)
  }

  /** No row of `edits` belongs to `roomId`. */
  predicate NoEdits(edits: seq<EditRow>, roomId: string)
  {
    forall i :: 0 <= i < |edits| ==> edits[i].roomId != roomId
  }

  /** Every row of `roomId` has an `edit_order` below `bound`. */
  predicate OrdersBelow(edits: seq<EditRow>, roomId: string, bound: int)
  {
    forall i :: 0 <= i < |edits| && edits[i].roomId == roomId ==> edits[i].editOrder < bound
  }

  lemma {:induction false} MaxOrderIsMaximum(edits: seq<EditRow>, roomId: string)
    ensures MaxOrder(edits, roomId).None? <==> NoEdits(edits, roomId)
    ensures MaxOrder(edits, roomId).Some? ==>
      var m := MaxOrder(edits, roomId).value;
      OrdersBelow(edits, roomId, m + 1)
      && exists i :: 0 <= i < |edits| && edits[i].roomId == roomId && edits[i].editOrder == m
    decreases |edits|
  {
    if |edits| > 0 {
      var init := edits[..|edits| - 1];
      MaxOrderIsMaximum(init, roomId);
      assert forall i :: 0 <= i < |init| ==> init[i] == edits[i];
    }
  }

  /** `nextOrder` (line 57): one past the room's highest `edit_order`, 0 for a room
      without edits. */
  function NextOrder(edits: seq<EditRow>, roomId: string): int
  {
    match MaxOrder(edits, roomId)
    case None => 0
    case Some(m) => m + 1
  }

  /** `NextOrder` is exactly the highest existing order plus one: it is above every
      order of the room, and either the room has no edits and it is 0, or some row of
      the room has order `NextOrder - 1`. */
  lemma NextOrderIsMaxPlusOne(edits: seq<EditRow>, roomId: string)
    ensures OrdersBelow(edits, roomId, NextOrder(edits, roomId))
    ensures NoEdits(edits, roomId) <==> MaxOrder(edits, roomId).None?
    ensures NoEdits(edits, roomId) ==> NextOrder(edits, roomId) == 0
    ensures !NoEdits(edits, roomId) ==>
      exists i :: 0 <= i < |edits| && edits[i].roomId == roomId && edits[i].editOrder == NextOrder(edits, roomId) - 1
  {
    MaxOrderIsMaximum(edits, roomId);
  }

  /** Appending a row of `roomId` whose order is `NextOrder` makes the next order one more. */
  lemma NextOrderAfterAppend(edits: seq<EditRow>, row: EditRow)
    requires row.editOrder >= NextOrder(edits, row.roomId)
    ensures NextOrder(edits + [row], row.roomId) == row.editOrder + 1
  {
    assert (edits + [row])[..|edits|] == edits;
    MaxOrderIsMaximum(edits, row.roomId);
  }

  /** Within every room, the rows appear in strictly increasing `edit_order`: turns are
      retrievable in order and no two turns of a room share a number. */
  predicate OrdersIncreasing(edits: seq<EditRow>)
  {
    forall i, j :: 0 <= i < j < |edits| && edits[i].roomId == edits[j].roomId ==>
      edits[i].editOrder < edits[j].editOrder
  }

  lemma AppendKeepsOrdersIncreasing(edits: seq<EditRow>, row: EditRow)
    requires OrdersIncreasing(edits)
    requires row.editOrder >= NextOrder(edits, row.roomId)
    ensures OrdersIncreasing(edits + [row])
  {
    NextOrderIsMaxPlusOne(edits, row.roomId);
    var e := edits + [row];
    forall i, j | 0 <= i < j < |e| && e[i].roomId == e[j].roomId
      ensures e[i].editOrder < e[j].editOrder
    {
      if j == |edits| {
        assert e[i] == edits[i];
      } else {
        assert e[i] == edits[i] && e[j] == edits[j];
      }
    }
  }

  // ----- request, identity, injected outcomes -----

  /** The three fields destructured from the request body. Only string values are
      modelled; a field that is absent, null or not a string is `None`. */
  datatype EditRequest = EditRequest(roomId: Option<string>, userMessage: Option<string>, currentImageUrl: Option<string>)

  /** The string stored under `key`, when the body is an object holding one there. */
  function StringField(body: Value, key: string): (r: Option<string>)
    ensures r.Some? <==> Get(Some(body), key).Some? && Get(Some(body), key).value.Str?
    ensures r.Some? ==> Get(Some(body), key) == Some(Str(r.value))
  {
    match Get(Some(body), key)
    case Some(Str(s)) => Some(s)
    case _ => None
  }

  /** `const { roomId, userMessage, currentImageUrl } = await req.json()` on a body that
      is not `null` (destructuring `null` throws). */
  function ParseEditRequest(body: Value): EditRequest
  {
    EditRequest(StringField(body, "roomId"), StringField(body, "userMessage"), StringField(body, "currentImageUrl"))
  }

  /** Line 25: all three fields must be truthy. */
  predicate RequestComplete(req: EditRequest)
  {
    Present(req.roomId) && Present(req.userMessage) && Present(req.currentImageUrl)
  }

  /** What `supabase.auth.getUser(token)` gives: an error, and the user's id when a user is found. */
  datatype Auth = Auth(error: Option<string>, userId: Option<string>)

  predicate Authorized(auth: Auth)
  {
    auth.error.None? && auth.userId.Some?
  }

  /** The error message each backend call returns, `None` when it succeeds. */
  datatype Faults = Faults(
    selectEdits: Option<string>,
    insertUser: Option<string>,
    upload: Option<string>,
    insertAssistant: Option<string>,
    updateRoom: Option<string>)

  predicate NoFaults(f: Faults)
  {
    f.selectEdits.None? && f.insertUser.None? && f.upload.None? && f.insertAssistant.None? && f.updateRoom.None?
  }

  /** `BFL_API_KEY`; the public URL prefix of the `room-images` bucket, so that the
      public URL of a file is that prefix followed by its name; and `Date.now()`. */
  datatype Env = Env(bflApiKey: Option<string>, publicBase: string, now: nat)

  /** The image provider's replies to this request. */
  datatype Provider = Provider(submit: SubmitReply, replies: seq<StatusReply>)

  /** Line 91: `${user.id}/${roomId}/${Date.now()}-edited.jpg`. */
  function FileName(userId: string, roomId: string, now: nat): string
  {
    userId + "/" + roomId + "/" + NatToString(now) + "-edited.jpg"
  }

  function UserRow(roomId: string, userMessage: string, currentImageUrl: string, order: int): EditRow
  {
    EditRow(roomId, UserEdit, userMessage, currentImageUrl, order)
  }

  function AssistantRow(roomId: string, publicUrl: string, order: int): EditRow
  {
    EditRow(roomId, AssistantEdit, SuccessText, publicUrl, order)
  }

  /** Lines 130-136: `{success: true, newImageUrl}` with status 200. */
  function SuccessResponse(publicUrl: string): (r: HttpResponse)
    ensures r.status == 200
    ensures Truthy(Get(Some(r.body), "success")) && Get(Some(r.body), "newImageUrl") == Some(Str(publicUrl))
  {
    HttpResponse(200, Obj(map["success" := Bool(true), "newImageUrl" := Str(publicUrl)]))
  }

  /** `update ... eq("id", roomId)`: changes the room when it exists, and nothing otherwise. */
  function PointRoomAt(rooms: map<string, string>, roomId: string, url: string): map<string, string>
  {
    if roomId in rooms then rooms[roomId := url] else rooms
  }

  // ----- the whole request, as a function of the store before it -----

  /** The outcome of one request: the response, the store afterwards, the body posted
      to the provider (if the request got that far) and the number of status queries. */
  datatype EditRun = EditRun(response: HttpResponse, state: StoreState, submitted: Option<Value>, queries: nat)

  function Abort(st: StoreState, message: string): EditRun
  {
    EditRun(ErrorResponse(message), st, None, 0)
  }

  /** Steps after the decoded image is in hand: upload, assistant turn, room pointer. */
  function Commit(st: StoreState, env: Env, userId: string, roomId: string, order: int,
                  bytes: seq<byte>, faults: Faults): (HttpResponse, StoreState)
  {
    var name := FileName(userId, roomId, env.now);
    if faults.upload.Some? then (ErrorResponse(faults.upload.value), st)
    else
      var st2 := st.(blobs := st.blobs[name := bytes]);
      var url := env.publicBase + name;
      if faults.insertAssistant.Some? then (ErrorResponse(faults.insertAssistant.value), st2)
      else
        var st3 := st2.(edits := st2.edits + [AssistantRow(roomId, url, order + 1)]);
        if faults.updateRoom.Some? then (ErrorResponse(faults.updateRoom.value), st3)
        else (SuccessResponse(url), st3.(rooms := PointRoomAt(st3.rooms, roomId, url)))
  }

  /** Steps after generation: decode the sample (or pass on the generation error), then commit. */
  function Finish(st: StoreState, env: Env, userId: string, roomId: string, order: int,
                  generated: Result<string, string>, faults: Faults): (HttpResponse, StoreState)
  {
    if generated.Failure? then (ErrorResponse(generated.error), st)
    else
      match ResultDecoder.DecodePayload(generated.value)
      case None => (ErrorResponse(DecodeErrorText), st)
      case Some(bytes) => Commit(st, env, userId, roomId, order, bytes, faults)
  }

  /** Steps after the caller is known: number, user turn, generation, decoding, commit. */
  function EditAuthorized(st: StoreState, env: Env, userId: string, roomId: string, userMessage: string,
                          currentImageUrl: string, faults: Faults, provider: Provider): EditRun
    requires MaxAttempts <= |provider.replies|
  {
    var order := NextOrder(st.edits, roomId);
    if faults.insertUser.Some? then Abort(st, faults.insertUser.value)
    else
      var st1 := st.(edits := st.edits + [UserRow(roomId, userMessage, currentImageUrl, order)]);
      var gen := Generate(provider.submit, provider.replies);
      var (response, st2) := Finish(st1, env, userId, roomId, order, gen.result, faults);
      EditRun(response, st2, Some(SubmitBody(userMessage, currentImageUrl)), gen.queries)
  }

  /** Reference definition of one request to the edge function. */
  function Edit(st: StoreState, env: Env, body: Value, auth: Auth, faults: Faults, provider: Provider): EditRun
    requires MaxAttempts <= |provider.replies|
  {
    var req := ParseEditRequest(body);
    if !Present(env.bflApiKey) then Abort(st, KeyMissingText)
    else if body.Null? then Abort(st, NullBodyText)
    else if !RequestComplete(req) then Abort(st, FieldsMissingText)
    else if !Authorized(auth) then Abort(st, UnauthorizedText)
    else if faults.selectEdits.Some? then Abort(st, faults.selectEdits.value)
    else EditAuthorized(st, env, auth.userId.value, req.roomId.value, req.userMessage.value,
                        req.currentImageUrl.value, faults, provider)
  }

  // ----- what one request promises -----

  /** A missing API key, a `null` body or a falsy field is rejected before any store
      access or provider call; a `null` body fails on the destructuring itself. */
  lemma InvalidInputChangesNothing(st: StoreState, env: Env, body: Value, auth: Auth, faults: Faults, provider: Provider)
    requires MaxAttempts <= |provider.replies|
    requires !Present(env.bflApiKey) || body.Null? || !RequestComplete(ParseEditRequest(body))
    ensures var run := Edit(st, env, body, auth, faults, provider);
      && run.state == st && run.submitted.None? && run.queries == 0
      && run.response == ErrorResponse(
           if !Present(env.bflApiKey) then KeyMissingText
           else if body.Null? then NullBodyText
           else FieldsMissingText)
  {
  }

  /** An auth error or a missing user gives "Unauthorized", with no write and no provider call. */
  lemma UnauthorizedChangesNothing(st: StoreState, env: Env, body: Value, auth: Auth, faults: Faults, provider: Provider)
    requires MaxAttempts <= |provider.replies|
    requires Present(env.bflApiKey) && RequestComplete(ParseEditRequest(body))
    requires !Authorized(auth)
    ensures var run := Edit(st, env, body, auth, faults, provider);
      run.state == st && run.submitted.None? && run.queries == 0 && run.response == ErrorResponse(UnauthorizedText)
  {
  }

  /** An error on the read of the room's highest order aborts with that error, before
      any write or provider call. */
  lemma SelectErrorChangesNothing(st: StoreState, env: Env, body: Value, auth: Auth, faults: Faults, provider: Provider)
    requires MaxAttempts <= |provider.replies|
    requires Present(env.bflApiKey) && RequestComplete(ParseEditRequest(body)) && Authorized(auth)
    requires faults.selectEdits.Some?
    ensures var run := Edit(st, env, body, auth, faults, provider);
      run.state == st && run.submitted.None? && run.queries == 0 && run.response == ErrorResponse(faults.selectEdits.value)
  {
  }

  /** The turns of a request: the user turn at `NextOrder` and the assistant turn one after. */
  function TurnPair(st: StoreState, env: Env, userId: string, req: EditRequest, bytesName: string): seq<EditRow>
    requires RequestComplete(req)
  {
    var roomId := req.roomId.value;
    var order := NextOrder(st.edits, roomId);
    [UserRow(roomId, req.userMessage.value, req.currentImageUrl.value, order),
     AssistantRow(roomId, env.publicBase + bytesName, order + 1)]
  }

  /** The request succeeds exactly when the key, the fields and the caller are valid,
      no backend call fails, the provider delivers a sample and the sample decodes.
      Then exactly two turns are appended, the user turn at `NextOrder` and the
      assistant turn at `NextOrder + 1` with the new public URL; the blob holds the
      decoded bytes; the room (if it exists) points at the public URL; and the
      response carries that same URL. */
  lemma SuccessAppendsPairAndMovesPointer(st: StoreState, env: Env, body: Value, auth: Auth, faults: Faults, provider: Provider)
    requires MaxAttempts <= |provider.replies|
    ensures var run := Edit(st, env, body, auth, faults, provider);
      var req := ParseEditRequest(body);
      var gen := Generate(provider.submit, provider.replies);
      && (run.response.status == 200 <==>
            Present(env.bflApiKey) && RequestComplete(req) && Authorized(auth) && NoFaults(faults)
            && gen.result.Success? && ResultDecoder.DecodePayload(gen.result.value).Some?)
      && (run.response.status == 200 ==>
            var roomId := req.roomId.value;
            var name := FileName(auth.userId.value, roomId, env.now);
            var url := env.publicBase + name;
            && run.response == SuccessResponse(url)
            && run.state.edits == st.edits + TurnPair(st, env, auth.userId.value, req, name)
            && run.state.blobs == st.blobs[name := ResultDecoder.DecodePayload(gen.result.value).value]
            && run.state.rooms == PointRoomAt(st.rooms, roomId, url)
            && run.submitted == Some(SubmitBody(req.userMessage.value, req.currentImageUrl.value)))
  {
  }

  /** No rollback: a failing request returns `{error}` with status 500 and leaves the
      room pointer alone, but keeps whatever turns it wrote before the failure: none,
      the user turn alone (a failure from the provider to the assistant insert), or
      both turns (a failed room update). */
  lemma FailureKeepsEarlierWrites(st: StoreState, env: Env, body: Value, auth: Auth, faults: Faults, provider: Provider)
    requires MaxAttempts <= |provider.replies|
    requires Edit(st, env, body, auth, faults, provider).response.status != 200
    ensures var run := Edit(st, env, body, auth, faults, provider);
      && run.response.status == 500
      && Get(Some(run.response.body), "error").Some?
      && run.state.rooms == st.rooms
      && st.edits <= run.state.edits
      && |run.state.edits| <= |st.edits| + 2
      && (RequestComplete(ParseEditRequest(body)) && Authorized(auth) ==>
            run.state.edits <= st.edits + TurnPair(st, env, auth.userId.value, ParseEditRequest(body),
                                                   FileName(auth.userId.value, ParseEditRequest(body).roomId.value, env.now)))
  {
    var req := ParseEditRequest(body);
    if Present(env.bflApiKey) && RequestComplete(req) && Authorized(auth) && faults.selectEdits.None? {
      var userId, roomId := auth.userId.value, req.roomId.value;
      var name := FileName(userId, roomId, env.now);
      AuthorizedWrites(st, env, userId, roomId, req.userMessage.value, req.currentImageUrl.value, faults, provider);
      var pair := TurnPair(st, env, userId, req, name);
      assert st.edits + pair[..1] <= st.edits + pair;
      assert st.edits + pair[..0] == st.edits;
    }
  }

  /** After the checks, a request appends nothing, the user turn, or the user turn and
      then the assistant turn; a failure answers 500 with `error` and leaves the room
      pointer alone. */
  lemma AuthorizedWrites(st: StoreState, env: Env, userId: string, roomId: string, userMessage: string,
                         currentImageUrl: string, faults: Faults, provider: Provider)
    requires MaxAttempts <= |provider.replies|
    ensures var run := EditAuthorized(st, env, userId, roomId, userMessage, currentImageUrl, faults, provider);
      var order := NextOrder(st.edits, roomId);
      var u := UserRow(roomId, userMessage, currentImageUrl, order);
      var a := AssistantRow(roomId, env.publicBase + FileName(userId, roomId, env.now), order + 1);
      && (run.state.edits == st.edits || run.state.edits == st.edits + [u] || run.state.edits == st.edits + [u, a])
      && (run.response.status != 200 ==>
            run.response.status == 500 && Get(Some(run.response.body), "error").Some? && run.state.rooms == st.rooms)
  {
    var order := NextOrder(st.edits, roomId);
    var u := UserRow(roomId, userMessage, currentImageUrl, order);
    var a := AssistantRow(roomId, env.publicBase + FileName(userId, roomId, env.now), order + 1);
    var st1 := st.(edits := st.edits + [u]);
    FinishWrites(st1, env, userId, roomId, order, Generate(provider.submit, provider.replies).result, faults);
    assert st1.edits + [a] == st.edits + [u, a];
  }

  /** The steps after generation append at most the assistant turn; on failure they
      answer 500 with `error` and leave the room pointer alone. */
  lemma FinishWrites(st: StoreState, env: Env, userId: string, roomId: string, order: int,
                     generated: Result<string, string>, faults: Faults)
    ensures var (response, st2) := Finish(st, env, userId, roomId, order, generated, faults);
      var a := AssistantRow(roomId, env.publicBase + FileName(userId, roomId, env.now), order + 1);
      && (st2.edits == st.edits || st2.edits == st.edits + [a])
      && (response.status != 200 ==>
            response.status == 500 && Get(Some(response.body), "error").Some? && st2.rooms == st.rooms)
  {
    if generated.Success? && ResultDecoder.DecodePayload(generated.value).Some? {
      CommitFailure(st, env, userId, roomId, order, ResultDecoder.DecodePayload(generated.value).value, faults);
    }
  }

  /** A failing commit leaves the room pointer alone and has appended at most the
      assistant turn. */
  lemma CommitFailure(st: StoreState, env: Env, userId: string, roomId: string, order: int,
                      bytes: seq<byte>, faults: Faults)
    ensures var (response, st2) := Commit(st, env, userId, roomId, order, bytes, faults);
      var url := env.publicBase + FileName(userId, roomId, env.now);
      && (response.status == 200 <==> faults.upload.None? && faults.insertAssistant.None? && faults.updateRoom.None?)
      && (response.status != 200 ==>
            && response.status == 500
            && Get(Some(response.body), "error").Some?
            && st2.rooms == st.rooms
            && (st2.edits == st.edits || st2.edits == st.edits + [AssistantRow(roomId, url, order + 1)]))
  {
  }

  /** A request whose generation fails after the user turn was written leaves exactly
      that user turn, unpaired, and no blob. */
  lemma GenerationFailureOrphansUserTurn(st: StoreState, env: Env, body: Value, auth: Auth, faults: Faults, provider: Provider)
    requires MaxAttempts <= |provider.replies|
    requires Present(env.bflApiKey) && RequestComplete(ParseEditRequest(body)) && Authorized(auth)
    requires faults.selectEdits.None? && faults.insertUser.None?
    requires Generate(provider.submit, provider.replies).result.Failure?
    ensures var run := Edit(st, env, body, auth, faults, provider);
      var req := ParseEditRequest(body);
      && run.response == ErrorResponse(Generate(provider.submit, provider.replies).result.error)
      && run.state.edits == st.edits + [UserRow(req.roomId.value, req.userMessage.value, req.currentImageUrl.value,
                                                NextOrder(st.edits, req.roomId.value))]
      && run.state.blobs == st.blobs && run.state.rooms == st.rooms
  {
  }

  /** Sequentially, every request keeps the turns of each room in strictly increasing
      order, whatever the outcome. */
  lemma EditKeepsOrdersIncreasing(st: StoreState, env: Env, body: Value, auth: Auth, faults: Faults, provider: Provider)
    requires MaxAttempts <= |provider.replies|
    requires OrdersIncreasing(st.edits)
    ensures OrdersIncreasing(Edit(st, env, body, auth, faults, provider).state.edits)
  {
    var req := ParseEditRequest(body);
    if Present(env.bflApiKey) && RequestComplete(req) && Authorized(auth) && faults.selectEdits.None? {
      var userId, roomId := auth.userId.value, req.roomId.value;
      var order := NextOrder(st.edits, roomId);
      var u := UserRow(roomId, req.userMessage.value, req.currentImageUrl.value, order);
      var a := AssistantRow(roomId, env.publicBase + FileName(userId, roomId, env.now), order + 1);
      PairKeepsOrdersIncreasing(st.edits, u, a);
      AuthorizedWrites(st, env, userId, roomId, req.userMessage.value, req.currentImageUrl.value, faults, provider);
    }
  }

  /** The user turn at `NextOrder` followed by the assistant turn one after it keeps
      each room's orders strictly increasing, after each of the two appends. */
  lemma PairKeepsOrdersIncreasing(edits: seq<EditRow>, u: EditRow, a: EditRow)
    requires OrdersIncreasing(edits)
    requires u.editOrder == NextOrder(edits, u.roomId) && a.roomId == u.roomId && a.editOrder == u.editOrder + 1
    ensures OrdersIncreasing(edits + [u]) && OrdersIncreasing(edits + [u, a])
  {
    AppendKeepsOrdersIncreasing(edits, u);
    NextOrderAfterAppend(edits, u);
    AppendKeepsOrdersIncreasing(edits + [u], a);
    assert edits + [u] + [a] == edits + [u, a];
  }

  // ----- the store, updated in place step by step -----

  class RoomStore {
    var edits: seq<EditRow>
    var rooms: map<string, string>
    var blobs: map<string, seq<byte>>

    function State(): StoreState
      reads this
    {
      StoreState(edits, rooms, blobs)
    }

    ghost predicate Valid()
      reads this
    {
      OrdersIncreasing(edits)
    }

    constructor (initialRooms: map<string, string>)
      ensures State() == StoreState([], initialRooms, map[])
      ensures Valid()
    {
      edits := [];
      rooms := initialRooms;
      blobs := map[];
    }

    /** `insert` into `room_edits`. */
    method InsertEdit(row: EditRow, fault: Option<string>) returns (error: Option<string>)
      modifies this
      ensures error == fault
      ensures edits == if fault.None? then old(edits) + [row] else old(edits)
      ensures rooms == old(rooms) && blobs == old(blobs)
    {
      error := fault;
      if fault.None? {
        edits := edits + [row];
      }
    }

    /** `storage.from("room-images").upload(name, bytes)`. */
    method Upload(name: string, bytes: seq<byte>, fault: Option<string>) returns (error: Option<string>)
      modifies this
      ensures error == fault
      ensures blobs == if fault.None? then old(blobs)[name := bytes] else old(blobs)
      ensures edits == old(edits) && rooms == old(rooms)
    {
      error := fault;
      if fault.None? {
        blobs := blobs[name := bytes];
      }
    }

    /** `from("rooms").update({current_image_url: url}).eq("id", roomId)`. */
    method UpdateCurrentImage(roomId: string, url: string, fault: Option<string>) returns (error: Option<string>)
      modifies this
      ensures error == fault
      ensures rooms == if fault.None? then PointRoomAt(old(rooms), roomId, url) else old(rooms)
      ensures edits == old(edits) && blobs == old(blobs)
    {
      error := fault;
      if fault.None? && roomId in rooms {
        rooms := rooms[roomId := url];
      }
    }

    /** Lines 91-136: upload the decoded image, append the assistant turn, point the
        room at the image and answer with its public URL. */
    method CommitImage(env: Env, userId: string, roomId: string, order: int, bytes: seq<byte>, faults: Faults)
      returns (response: HttpResponse)
      modifies this
      ensures (response, State()) == Commit(old(State()), env, userId, roomId, order, bytes, faults)
    {
      var fileName := FileName(userId, roomId, env.now);
      var error := Upload(fileName, bytes, faults.upload);
      if error.Some? {
        return ErrorResponse(error.value);
      }
      var publicUrl := env.publicBase + fileName;

      error := InsertEdit(AssistantRow(roomId, publicUrl, order + 1), faults.insertAssistant);
      if error.Some? {
        return ErrorResponse(error.value);
      }

      error := UpdateCurrentImage(roomId, publicUrl, faults.updateRoom);
      if error.Some? {
        return ErrorResponse(error.value);
      }
      response := SuccessResponse(publicUrl);
    }

    /** The `serve` handler: one request, applied to this store. */
    method EditRoomImage(env: Env, body: Value, auth: Auth, faults: Faults, provider: Provider)
      returns (response: HttpResponse, submitted: Option<Value>, queries: nat)
      requires MaxAttempts <= |provider.replies|
      modifies this
      ensures EditRun(response, State(), submitted, queries) == Edit(old(State()), env, body, auth, faults, provider)
      ensures old(Valid()) ==> Valid()
    {
      ghost var st := State();
      if old(Valid()) {
        EditKeepsOrdersIncreasing(st, env, body, auth, faults, provider);
      }
      submitted, queries := None, 0;
      if !Present(env.bflApiKey) {
        return ErrorResponse(KeyMissingText), None, 0;
      }
      if body.Null? {
        return ErrorResponse(NullBodyText), None, 0;
      }
      var req := ParseEditRequest(body);
      if !Present(req.roomId) || !Present(req.userMessage) || !Present(req.currentImageUrl) {
        return ErrorResponse(FieldsMissingText), None, 0;
      }
      var roomId, userMessage, currentImageUrl := req.roomId.value, req.userMessage.value, req.currentImageUrl.value;
      if auth.error.Some? || auth.userId.None? {
        return ErrorResponse(UnauthorizedText), None, 0;
      }
      var userId := auth.userId.value;
      if faults.selectEdits.Some? {
        return ErrorResponse(faults.selectEdits.value), None, 0;
      }
      var nextOrder := NextOrder(edits, roomId);

      var error := InsertEdit(UserRow(roomId, userMessage, currentImageUrl, nextOrder), faults.insertUser);
      if error.Some? {
        return ErrorResponse(error.value), None, 0;
      }

      submitted := Some(SubmitBody(userMessage, currentImageUrl));
      var generated, polled;
      generated, queries, polled := CreateNewImageFromPrompt(provider.submit, provider.replies);
      if generated.Failure? {
        response := ErrorResponse(generated.error);
        return;
      }
      var decoded := ResultDecoder.DecodePayload(generated.value);
      if decoded.None? {
        response := ErrorResponse(DecodeErrorText);
        return;
      }

      response := CommitImage(env, userId, roomId, nextOrder, decoded.value, faults);
    }
  }
}
