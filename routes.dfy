/**
 * The machine-learning routes of the API server (backend/api/routes/ml.ts):
 * `/train`, `/predict` and `/update-data`. Each handler calls the prediction
 * service, whose answer is a parameter here (it runs the Python engine in a
 * child process), then writes through the store and pushes an event to the
 * open connections. Every effect is also appended to `log`, so the order in
 * which they happen is part of the observable state.
 */
module MlRoutes {
  import opened Wrappers
  import opened Types
  import opened MatchStore
  import opened WebSocketHub

  /** A rejection of the prediction service: an `Error`, or any other thrown value. */
  datatype Failure = ErrorObject(message: string) | OtherThrown

  /** `error instanceof Error ? error.message : 'Unknown error'`. */
  function Details(f: Failure): string {
    match f
    case ErrorObject(message) => message
    case OtherThrown => "Unknown error"
  }

  /** How a call to the prediction service settled. */
  datatype Outcome<T> = Resolved(value: T) | Rejected(failure: Failure)

  /** The service calls a handler can make. */
  datatype MlCall = TrainCall | PredictCall(opponent: string, venue: string, competition: string) | UpdateCall

  /** One observable effect of a handler, in the order it happened. */
  datatype Effect =
    | CalledService(call: MlCall)
    | StoredPrediction(id: nat)
    | Pushed(event: Event)

  /** The `/predict` body: each field may be absent. */
  datatype PredictBody = PredictBody(opponent: Option<string>, venue: Option<string>, competition: Option<string>)

  /** What the `data` field of a response carries. */
  datatype Payload = NoData | Lines(lines: seq<string>) | PredictionData(prediction: MlPrediction)

  /** The HTTP status and the JSON envelope of a response. */
  datatype Response = Response(
    status: nat,
    success: bool,
    message: Option<string>,
    error: Option<string>,
    details: Option<string>,
    data: Payload)

  const MissingFields: string := "Missing required fields: opponent, venue, competition"
  const PredictFailed: string := "Failed to generate prediction"
  const TrainFailed: string := "Failed to train model"
  const UpdateFailed: string := "Failed to update data"
  const TrainedMessage: string := "Model trained successfully"
  const UpdatedMessage: string := "Data updated successfully"

  /** JavaScript truthiness of an optional string: present and non-empty. */
  predicate Truthy(f: Option<string>) {
    f.Some? && f.value != ""
  }

  /** The body passes the handler's check: all three fields are truthy. */
  predicate Complete(body: PredictBody) {
    Truthy(body.opponent) && Truthy(body.venue) && Truthy(body.competition)
  }

  function CallFor(body: PredictBody): MlCall
    requires Complete(body)
  {
    PredictCall(body.opponent.value, body.venue.value, body.competition.value)
  }

  function ServerError(error: string, f: Failure): Response
  {
    Response(500, false, None, Some(error), Some(Details(f)), NoData)
  }

  /** The row `/predict` stores: the request's fields and the service's answer. */
  function PredictionRow(today: string, opponent: string, venue: string, competition: string, p: MlPrediction): PredictionInput
  {
    PredictionInput(today, opponent, venue, competition, p.prediction, p.win, p.draw, p.loss, p.confidence, p.modelVersion)
  }

  /** The router, wired to one store and one connection hub. */
  class MlRouter {
    const db: DatabaseService
    const hub: Hub
    var log: seq<Effect>

    constructor (db: DatabaseService, hub: Hub)
      ensures this.db == db && this.hub == hub && log == []
    {
      this.db := db;
      this.hub := hub;
      log := [];
    }

    /**
     * POST /train: calls the service; on success pushes `model_updated` and
     * answers with its output, on failure answers 500 and pushes nothing.
     */
    method Train(ml: Outcome<seq<string>>, now: int) returns (res: Response)
      requires hub.Valid()
      modifies this`log, hub.Connections()
      ensures ml.Resolved? ==> && log == old(log) + [CalledService(TrainCall), Pushed(ModelUpdated(now))]
                               && hub.clients == old(hub.clients)
                               && (forall i :: 0 <= i < |hub.clients| ==>
                                     hub.clients[i].outbox == old(hub.clients[i].outbox) + Delivered(old(hub.clients[i].readyState), ModelUpdated(now)))
                               && res == Response(200, true, Some(TrainedMessage), None, None, Lines(ml.value))
      ensures ml.Rejected? ==> && log == old(log) + [CalledService(TrainCall)]
                               && (forall c :: c in old(hub.clients) ==> c.outbox == old(c.outbox))
                               && res == ServerError(TrainFailed, ml.failure)
      ensures forall c :: c in old(hub.clients) ==> c.readyState == old(c.readyState) && c.subscriptions == old(c.subscriptions)
      ensures db.matches == old(db.matches) && db.predictions == old(db.predictions)
    {
      log := log + [CalledService(TrainCall)];
      if ml.Rejected? {
        return ServerError(TrainFailed, ml.failure);
      }
      hub.Broadcast(ModelUpdated(now));
      log := log + [Pushed(ModelUpdated(now))];
      res := Response(200, true, Some(TrainedMessage), None, None, Lines(ml.value));
    }

    /**
     * POST /update-data: calls the service; on success pushes `data_updated`
     * and answers with its output, on failure answers 500 and pushes nothing.
     */
    method UpdateData(ml: Outcome<seq<string>>, now: int) returns (res: Response)
      requires hub.Valid()
      modifies this`log, hub.Connections()
      ensures ml.Resolved? ==> && log == old(log) + [CalledService(UpdateCall), Pushed(DataUpdated(now))]
                               && hub.clients == old(hub.clients)
                               && (forall i :: 0 <= i < |hub.clients| ==>
                                     hub.clients[i].outbox == old(hub.clients[i].outbox) + Delivered(old(hub.clients[i].readyState), DataUpdated(now)))
                               && res == Response(200, true, Some(UpdatedMessage), None, None, Lines(ml.value))
      ensures ml.Rejected? ==> && log == old(log) + [CalledService(UpdateCall)]
                               && (forall c :: c in old(hub.clients) ==> c.outbox == old(c.outbox))
                               && res == ServerError(UpdateFailed, ml.failure)
      ensures forall c :: c in old(hub.clients) ==> c.readyState == old(c.readyState) && c.subscriptions == old(c.subscriptions)
      ensures db.matches == old(db.matches) && db.predictions == old(db.predictions)
    {
      log := log + [CalledService(UpdateCall)];
      if ml.Rejected? {
        return ServerError(UpdateFailed, ml.failure);
      }
      hub.Broadcast(DataUpdated(now));
      log := log + [Pushed(DataUpdated(now))];
      res := Response(200, true, Some(UpdatedMessage), None, None, Lines(ml.value));
    }

    /**
     * POST /predict: rejects a body missing any of the three fields with 400
     * and no effect; otherwise calls the service, stores the prediction it
     * returns and, only once the row is stored, pushes `new_prediction`. A
     * failure of the service or of the store answers 500 and pushes nothing.
     */
    method Predict(body: PredictBody, ml: Outcome<MlPrediction>, storeFault: Option<string>, today: string)
      returns (res: Response)
      requires db.Valid() && hub.Valid()
      modifies this`log, db`predictions, db`lastId, hub.Connections()
      ensures db.Valid()
      ensures db.matches == old(db.matches)
      ensures forall c :: c in old(hub.clients) ==> c.readyState == old(c.readyState) && c.subscriptions == old(c.subscriptions)
      ensures !Complete(body) ==>
                && res == Response(400, false, None, Some(MissingFields), None, NoData)
                && log == old(log) && db.predictions == old(db.predictions)
      ensures Complete(body) && ml.Rejected? ==>
                && res == ServerError(PredictFailed, ml.failure)
                && log == old(log) + [CalledService(CallFor(body))] && db.predictions == old(db.predictions)
      ensures Complete(body) && ml.Resolved? && storeFault.Some? ==>
                && res == ServerError(PredictFailed, ErrorObject(storeFault.value))
                && log == old(log) + [CalledService(CallFor(body))] && db.predictions == old(db.predictions)
      ensures !(Complete(body) && ml.Resolved? && storeFault.None?) ==>
                forall c :: c in old(hub.clients) ==> c.outbox == old(c.outbox)
      ensures !(Complete(body) && ml.Resolved? && storeFault.None?) ==> db.lastId == old(db.lastId)
      ensures Complete(body) && ml.Resolved? && storeFault.None? ==> |db.predictions| == |old(db.predictions)| + 1
      ensures Complete(body) && ml.Resolved? && storeFault.None? ==>
                db.predictions == old(db.predictions) + [Prediction(db.predictions[|db.predictions| - 1].id,
                  PredictionRow(today, body.opponent.value, body.venue.value, body.competition.value, ml.value))]
      ensures Complete(body) && ml.Resolved? && storeFault.None? ==>
                forall i :: 0 <= i < |old(db.predictions)| ==> old(db.predictions)[i].id < db.predictions[|db.predictions| - 1].id
      ensures Complete(body) && ml.Resolved? && storeFault.None? ==>
                log == old(log) + [CalledService(CallFor(body)), StoredPrediction(db.predictions[|db.predictions| - 1].id), Pushed(NewPrediction(ml.value))]
      ensures Complete(body) && ml.Resolved? && storeFault.None? ==>
                res == Response(200, true, None, None, None, PredictionData(ml.value))
      ensures Complete(body) && ml.Resolved? && storeFault.None? ==>
                && hub.clients == old(hub.clients)
                && forall i :: 0 <= i < |hub.clients| ==>
                     hub.clients[i].outbox == old(hub.clients[i].outbox) + Delivered(old(hub.clients[i].readyState), NewPrediction(ml.value))
    {
      if !Complete(body) {
        return Response(400, false, None, Some(MissingFields), None, NoData);
      }
      var opponent, venue, competition := body.opponent.value, body.venue.value, body.competition.value;
      log := log + [CalledService(PredictCall(opponent, venue, competition))];
      if ml.Rejected? {
        return ServerError(PredictFailed, ml.failure);
      }
      var p := ml.value;
      var row := PredictionRow(today, opponent, venue, competition, p);
      ghost var before := db.predictions;
      var stored := db.InsertPrediction(row, storeFault);
      if stored.StorageFailure? {
        return ServerError(PredictFailed, ErrorObject(stored.reason));
      }
      assert db.predictions == before + [Prediction(stored.id, row)];
      assert db.predictions[|db.predictions| - 1].id == stored.id;
      log := log + [StoredPrediction(stored.id)];
      hub.Broadcast(NewPrediction(p));
      log := log + [Pushed(NewPrediction(p))];
      res := Response(200, true, None, None, None, PredictionData(p));
    }
  }
}
