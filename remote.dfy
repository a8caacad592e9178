/**
 What the remote services answer, one value per request. The network, the
 HTTP sessions, authentication and timeouts are not modelled: each request of
 the cog consumes the next scripted reply.
 */
module Remote {
  import opened Docs

  /** One model the analysis backend offers: `{"model_id": ..., "model_type": ...}`. */
  datatype ModelDescriptor = ModelDescriptor(modelId: string, modelType: string)

  /** The decoded body of `GET {api}/models`. */
  datatype ModelsBody =
    | Listing(models: seq<ModelDescriptor>)  // `{"models": [...]}`
    | NoModelsKey                            // a JSON object without `models`
    | Unreadable                             // decoding or `.get` raised

  /** The answer to `GET {api}/models`. */
  datatype ModelsReply =
    | ModelsHttp(status: int, body: ModelsBody)
    | ModelsRaised                           // connection error or timeout

  /**
   The answer to the raw match download `GET {tensoul}{id}`. `FetchRaised`
   stands for every exception the attempt can raise (connection, timeout, an
   undecodable body, a failed cache write), named by its class.
   */
  datatype FetchReply =
    | FetchHttp(status: int, body: Doc)      // the body is read only on status 200
    | FetchRaised(exception: string)

  /** The two exception classes the submission loop retries on. */
  datatype Transient =
    | ServerDisconnected                     // aiohttp.ServerDisconnectedError
    | TimedOut(exception: string)            // asyncio.TimeoutError, by its class name

  /** The answer to one `POST {api}/review?model=...`. */
  datatype SubmitReply =
    | SubmitHttp(status: int, taskId: Option<string>)  // `task_id` is read only on status 200
    | SubmitTransient(kind: Transient)
    | SubmitRaised(exception: string)                  // any other exception, e.g. an undecodable body

  /** The decoded body of a status-200 poll, by its `status` member. */
  datatype PollBody =
    | Done(data: Option<Doc>)                // `data` absent is None
    | Working
    | Failed(error: Option<string>)          // `error` absent is None
    | OtherStatus                            // any other or no status

  /**
   The answer to one `GET {api}/review?task=...`. `PollRaised` stands for every
   exception inside an iteration: transport errors, an undecodable body, and a
   failed write of the result file.
   */
  datatype PollReply =
    | PollHttp(status: int, body: PollBody)  // the body is read only on status 200
    | PollRaised
}
