/**
 * The state of the `Home` page in src/app/page.tsx and the updates
 * `fetchRainData` makes to it. The request to `/api/rain` and the JSON
 * parsing are outside the model: their result arrives as a `FetchOutcome`.
 */
module Dashboard {
  import opened Wrappers
  import opened RainTypes
  import opened Search
  import opened Stats

  /** A value thrown inside the `try`: an `Error` with its message, or anything else. */
  datatype Thrown = ErrorObject(message: string) | NonError

  /** How the awaited steps of the `try` ended. */
  datatype FetchOutcome =
    | NotOk                                         // `response.ok` was false
    | Parsed(data: Option<seq<RainStation>>)        // the body parsed; its `data` field, if present
    | Rejected(thrown: Thrown)                      // `fetch` or `response.json()` threw

  const NetworkFailure := "網絡請求失敗"
  const UnknownFailure := "未知錯誤"

  /** The message the `catch` block stores for a thrown value. */
  function CaughtMessage(thrown: Thrown): (m: string)
    ensures thrown.ErrorObject? ==> m == thrown.message
    ensures m == "" ==> thrown.ErrorObject?
    ensures m == UnknownFailure <==> thrown.NonError? || thrown.message == UnknownFailure
  {
    match thrown
    case ErrorObject(message) => message
    case NonError => UnknownFailure
  }

  /** The thrown value an outcome leads to, if it fails. */
  function Failure(outcome: FetchOutcome): Option<Thrown> {
    match outcome
    case NotOk => Some(ErrorObject(NetworkFailure))
    case Parsed(_) => None
    case Rejected(thrown) => Some(thrown)
  }

  class Home {
    var rainData: seq<RainStation>
    var loading: bool
    var error: Option<string>

    /** The `useState` initial values. */
    constructor ()
      ensures rainData == [] && loading && error == None
    {
      rainData := [];
      loading := true;
      error := None;
    }

    /** The statements before the first `await`: loading on, error cleared. */
    method BeginFetch()
      modifies this
      ensures loading && error == None
      ensures rainData == old(rainData)
    {
      loading := true;
      error := None;
    }

    /** The rest of the `try`, the `catch` and the `finally`. */
    method CompleteFetch(outcome: FetchOutcome)
      modifies this
      ensures !loading
      ensures outcome.Parsed? ==> rainData == outcome.data.GetOr([]) && error == old(error)
      ensures !outcome.Parsed? ==> rainData == old(rainData)
      ensures outcome.NotOk? ==> error == Some(NetworkFailure)
      ensures outcome.Rejected? ==> error == Some(CaughtMessage(outcome.thrown))
    {
      var failure := Failure(outcome);
      if failure == None {
        rainData := outcome.data.GetOr([]);
      } else {
        error := Some(CaughtMessage(failure.value));
      }
      loading := false;
    }

    /** `fetchRainData`: a fetch that succeeds replaces the list; one that fails keeps it and sets the error. */
    method FetchRainData(outcome: FetchOutcome)
      modifies this
      ensures !loading
      ensures outcome.Parsed? ==> rainData == outcome.data.GetOr([]) && error == None
      ensures outcome.NotOk? ==> rainData == old(rainData) && error == Some(NetworkFailure)
      ensures outcome.Rejected? ==> rainData == old(rainData) && error == Some(CaughtMessage(outcome.thrown))
    {
      BeginFetch();
      CompleteFetch(outcome);
    }

    /** The list handed to `RainDataList`. */
    method Shown(searchQuery: string) returns (shown: seq<RainStation>)
      ensures shown == FilteredData(rainData, searchQuery)
      ensures forall s :: s in shown <==> s in rainData && Matches(s, searchQuery)
      ensures searchQuery == "" ==> shown == rainData
    {
      shown := FilteredData(rainData, searchQuery);
    }

    /** The statistics the summary grid shows. */
    method Summary() returns (stats: RainStats)
      ensures stats == RainStatsOf(rainData)
      ensures stats.total == |rainData|
      ensures TierSum(stats) <= stats.total
    {
      stats := RainStatsOf(rainData);
      TierSumPlusUnknown(rainData);
    }
  }

  /** After a fetch whose body holds one station (001, 'Test', 12.5 mm), that station is shown. */
  method ExampleScenario() returns (shown: seq<RainStation>)
    ensures shown == [RainStation("001", "Test", "202401010000", 12.5)]
  {
    var home := new Home();
    var station := RainStation("001", "Test", "202401010000", 12.5);
    home.FetchRainData(Parsed(Some([station])));
    shown := home.Shown("");
  }
}
