/** The client call of the edit function (`createNewImageFromPrompt` in
    src/api2_flux.ts) and how its result relates to what the server stored. */
module FluxClient {
  import opened Js
  import opened Envelope
  import Poller
  import EditPipeline

  const DefaultMessage: string := "Failed to generate image"

  /** Lines 8-14: `{roomId, userMessage: prompt, currentImageUrl}`. */
  function RequestBody(prompt: string, currentImageUrl: string, roomId: string): Value
  {
    Obj(map["roomId" := Str(roomId), "userMessage" := Str(prompt), "currentImageUrl" := Str(currentImageUrl)])
  }

  /** The body carries exactly the three fields the server reads, under the names it
      reads them by. */
  lemma RequestBodyParsed(prompt: string, currentImageUrl: string, roomId: string)
    ensures EditPipeline.ParseEditRequest(RequestBody(prompt, currentImageUrl, roomId))
         == EditPipeline.EditRequest(Some(roomId), Some(prompt), Some(currentImageUrl))
    ensures EditPipeline.RequestComplete(EditPipeline.ParseEditRequest(RequestBody(prompt, currentImageUrl, roomId)))
        <==> roomId != "" && prompt != "" && currentImageUrl != ""
  {
    var body := RequestBody(prompt, currentImageUrl, roomId);
    assert Get(Some(body), "roomId") == Some(Str(roomId));
    assert Get(Some(body), "userMessage") == Some(Str(prompt));
    assert Get(Some(body), "currentImageUrl") == Some(Str(currentImageUrl));
  }

  /** Lines 16-25: the new image's URL, `data.newImageUrl` (`None` for `undefined`),
      or the thrown message. */
  function NewImageUrl(inv: Invocation): (r: Result<Option<Value>, Value>)
    ensures r.Success? <==> inv.error.None? && Truthy(Get(inv.data, "success"))
    ensures r.Success? ==> r.value == Get(inv.data, "newImageUrl")
    ensures r.Failure? ==> r == Failure(Unwrap(inv, DefaultMessage).error)
  {
    match Unwrap(inv, DefaultMessage)
    case Failure(e) => Failure(e)
    case Success(data) => Success(Get(Some(data), "newImageUrl"))
  }

  /** End to end: when the server's response reaches the client unchanged, a
      successful edit gives the client exactly the URL the server stored, both as the
      assistant turn's image and as the room's current image; a failed edit makes the
      client throw. */
  lemma ClientSeesStoredUrl(st: EditPipeline.StoreState, env: EditPipeline.Env, body: Value, auth: EditPipeline.Auth,
                            faults: EditPipeline.Faults, provider: EditPipeline.Provider)
    requires Poller.MaxAttempts <= |provider.replies|
    ensures var run := EditPipeline.Edit(st, env, body, auth, faults, provider);
      var r := NewImageUrl(Invocation(None, Some(run.response.body)));
      && (r.Success? <==> run.response.status == 200)
      && (r.Success? ==>
            var roomId := EditPipeline.ParseEditRequest(body).roomId.value;
            var last := run.state.edits[|run.state.edits| - 1];
            && r.value == Some(Str(last.imageUrl))
            && last.editType == EditPipeline.AssistantEdit && last.roomId == roomId
            && (roomId in st.rooms ==> run.state.rooms[roomId] == last.imageUrl))
  {
    EditPipeline.SuccessAppendsPairAndMovesPointer(st, env, body, auth, faults, provider);
    var run := EditPipeline.Edit(st, env, body, auth, faults, provider);
    if run.response.status != 200 {
      EditPipeline.FailureKeepsEarlierWrites(st, env, body, auth, faults, provider);
      assert run.response.body == Obj(map["error" := run.response.body.fields["error"]]);
    }
  }
}
