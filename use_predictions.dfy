/** The predictions hook: a user's saved predictions kept in sync with the hosted
    database through an initial fetch and a realtime INSERT subscription, plus the
    `savePrediction` call that stores a new record for that user. */
module UsePredictions {
  import opened Wrappers
  import opened JsValues
  import opened JsObjects
  import opened Remote

  const Table: string := "predictions"
  const Fallback: string := "An error occurred"

  type Record = Object<Json>

  /** What the hook asks of the database and of the realtime service, in order. */
  datatype Effect =
    | Subscribe(table: string, filter: string)
    | Unsubscribe(filter: string)
    | Fetch(query: Query)
    | InsertRow(table: string, row: Record)

  /** The realtime filter on the user's rows. */
  function UserFilter(userId: string): (filter: string)
    ensures |filter| == |"user_id=eq."| + |userId|
    ensures filter[..|"user_id=eq."|] == "user_id=eq."
    ensures filter[|"user_id=eq."|..] == userId
  {
    "user_id=eq." + userId
  }

  /** The initial fetch: the user's rows, newest first. */
  function UserQuery(userId: string): Query
  {
    SelectWhere(Table, "user_id", Some(userId), "created_at", false)
  }

  /** `{...prediction, user_id: userId}`. */
  function StampedRecord(prediction: Record, userId: string): Record
  {
    Put(Spread([], prediction), "user_id", JString(userId))
  }

  /** The stored record always carries the hook's user id, whatever `user_id` the
      argument held; every other property of a well-formed argument is kept. */
  lemma StampedRecordOwner(prediction: Record, userId: string, k: string)
    requires UniqueKeys(prediction)
    ensures Get(StampedRecord(prediction, userId), "user_id") == Some(JString(userId))
    ensures k != "user_id" ==> Get(StampedRecord(prediction, userId), k) == Get(prediction, k)
  {
    SpreadCopies(prediction);
    PutGet(prediction, "user_id", JString(userId), k);
  }

  /** A record without `user_id` gains it as its last property. */
  lemma StampedRecordKeys(prediction: Record, userId: string)
    requires UniqueKeys(prediction) && "user_id" !in Keys(prediction)
    ensures Keys(StampedRecord(prediction, userId)) == Keys(prediction) + ["user_id"]
  {
    SpreadCopies(prediction);
    PutKeys(prediction, "user_id", JString(userId));
  }

  /** The hook's state for one component instance. */
  class PredictionsHook {
    var userId: string
    var predictions: seq<Record>
    var loading: bool
    var error: Option<string>
    /** The filter of the live subscription, if any. */
    var subscription: Option<string>
    var effects: seq<Effect>

    /** The first render: no rows yet, loading, nothing subscribed. */
    constructor (userId: string)
      ensures this.userId == userId && predictions == [] && loading && error == None
      ensures subscription == None && effects == []
    {
      this.userId := userId;
      predictions := [];
      loading := true;
      error := None;
      subscription := None;
      effects := [];
    }

    /** The effect body: the subscription is set up first, then the fetch is issued. */
    method Mount()
      requires subscription.None?
      modifies this
      ensures subscription == Some(UserFilter(userId))
      ensures effects == old(effects) + [Subscribe(Table, UserFilter(userId)), Fetch(UserQuery(userId))]
      ensures userId == old(userId) && predictions == old(predictions) && loading == old(loading)
      ensures error == old(error)
    {
      subscription := Some(UserFilter(userId));
      effects := effects + [Subscribe(Table, UserFilter(userId))];
      effects := effects + [Fetch(UserQuery(userId))];
    }

    /** The fetch settles: success replaces the list, failure keeps it and records the
        message; loading ends either way. */
    method FetchCompleted(outcome: Outcome<seq<Record>>)
      modifies this
      ensures outcome.Success? ==> predictions == outcome.data && error == old(error)
      ensures outcome.Failed? ==> predictions == old(predictions) && error == Some(MessageOr(outcome.failure, Fallback))
      ensures !loading
      ensures userId == old(userId) && subscription == old(subscription) && effects == old(effects)
    {
      match outcome {
        case Success(data) => predictions := data;
        case Failed(f) => error := Some(MessageOr(f, Fallback));
      }
      loading := false;
    }

    /** An INSERT notification puts the new row in front of the current list. */
    method OnInsert(row: Record)
      requires subscription.Some?
      modifies this
      ensures predictions == [row] + old(predictions)
      ensures |predictions| == |old(predictions)| + 1 && predictions[1..] == old(predictions)
      ensures userId == old(userId) && loading == old(loading) && error == old(error)
      ensures subscription == old(subscription) && effects == old(effects)
    {
      predictions := [row] + predictions;
    }

    /** The effect's cleanup. */
    method Unmount()
      requires subscription.Some?
      modifies this
      ensures subscription == None
      ensures effects == old(effects) + [Unsubscribe(old(subscription).value)]
      ensures userId == old(userId) && predictions == old(predictions) && loading == old(loading)
      ensures error == old(error)
    {
      effects := effects + [Unsubscribe(subscription.value)];
      subscription := None;
    }

    /** A new `userId`: the old subscription is torn down before the new one is set up
        and the new fetch issued. The list and the flags are not reset. */
    method ChangeUser(newUserId: string)
      requires subscription.Some? && newUserId != userId
      modifies this
      ensures userId == newUserId && subscription == Some(UserFilter(newUserId))
      ensures effects == old(effects) + [Unsubscribe(old(subscription).value),
                                         Subscribe(Table, UserFilter(newUserId)), Fetch(UserQuery(newUserId))]
      ensures predictions == old(predictions) && loading == old(loading) && error == old(error)
    {
      Unmount();
      userId := newUserId;
      Mount();
    }

    /** `savePrediction`: inserts the stamped record and returns exactly one of the
        stored row and an error message. */
    method SavePrediction(prediction: Record, outcome: Outcome<Record>) returns (data: Option<Record>, err: Option<string>)
      modifies this
      ensures effects == old(effects) + [InsertRow(Table, StampedRecord(prediction, userId))]
      ensures data.Some? != err.Some?
      ensures outcome.Success? ==> data == Some(outcome.data) && err == None
      ensures outcome.Failed? ==> data == None && err == Some(MessageOr(outcome.failure, Fallback))
      ensures userId == old(userId) && predictions == old(predictions) && loading == old(loading)
      ensures error == old(error) && subscription == old(subscription)
    {
      effects := effects + [InsertRow(Table, StampedRecord(prediction, userId))];
      match outcome {
        case Success(row) =>
          data, err := Some(row), None;
        case Failed(f) =>
          data, err := None, Some(MessageOr(f, Fallback));
      }
    }
  }
}
