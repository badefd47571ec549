/** The history page (`frontend/src/pages/HistoryPage.js`): three state cells, the one
    fetch its mount effect issues and how that fetch's settlement updates them, and the
    conditionals that choose what the page body shows. The GET is replaced by an `Outcome`
    standing for its settlement. */
module HistoryPage {
  import opened Wrappers

  /** One past analysis as the history endpoint returns it. The timestamp is kept as the
      service sends it; the page only formats it for display. */
  datatype Entry = Entry(id: string, originalText: string, summary: string, category: string, processedAt: string)

  /** How the GET settles: with the response body, or by throwing. */
  datatype Outcome = Fetched(data: seq<Entry>) | FetchFailed

  /** The page's `useState` cells. */
  datatype State = State(history: seq<Entry>, isLoading: bool, error: string)

  const FetchError := "Failed to fetch ticket history."

  /** The state on mount, when the fetch has just been issued. */
  const Mounted := State([], true, "")

  /** What holds between events: the error cell holds the page's message or nothing, and
      while loading there is neither history nor an error. */
  predicate Inv(s: State) {
    (s.error == "" || s.error == FetchError) &&
    (s.isLoading ==> s.history == [] && s.error == "")
  }

  /** The fetch effect after its `await`: a response body becomes the history as it is, a
      failure sets the message and leaves the history alone, and loading ends either way. */
  function AfterFetch(s: State, outcome: Outcome): (t: State)
    ensures !t.isLoading
    ensures outcome.Fetched? ==> t.history == outcome.data && t.error == s.error
    ensures outcome.FetchFailed? ==> t.error == FetchError && t.history == s.history
  {
    match outcome
    case Fetched(data) => s.(history := data, isLoading := false)
    case FetchFailed => s.(error := FetchError, isLoading := false)
  }

  lemma MountedInv()
    ensures Inv(Mounted)
  {
  }

  lemma FetchPreservesInv(s: State, outcome: Outcome)
    requires Inv(s)
    ensures Inv(AfterFetch(s, outcome))
  {
  }

  // ---------------------------------------------------------------------------------
  // What the page shows
  // ---------------------------------------------------------------------------------

  /** One `TicketRow`: its React key, its position (which staggers its animation) and the
      entry it shows. */
  datatype Row = Row(key: string, index: nat, ticket: Entry)

  /** `history.map((ticket, index) => <TicketRow key={ticket.id} .../>)`: one row per entry,
      in the order the service returned them, keyed by the entry's id, nothing dropped,
      added or reordered. */
  function Rows(history: seq<Entry>): (rows: seq<Row>)
    ensures |rows| == |history|
    ensures forall i :: 0 <= i < |rows| ==>
              rows[i].ticket == history[i] && rows[i].key == history[i].id && rows[i].index == i
  {
    seq(|history|, i requires 0 <= i < |history| => Row(history[i].id, i, history[i]))
  }

  /** The blocks the page body can contain. */
  datatype Block = LoadingMessage | ErrorMessage(text: string) | RowList(rows: seq<Row>) | EmptyState

  /** The page body as written: three independent conditionals, in order — the loading
      message when loading, the error when there is one, and, when neither, the rows or the
      empty-state message. At least one block always shows, and two show only when the
      page is loading and has an error at the same time. */
  function Blocks(s: State): (bs: seq<Block>)
    ensures 1 <= |bs| <= 2
    ensures |bs| == 2 <==> s.isLoading && s.error != ""
  {
    (if s.isLoading then [LoadingMessage] else []) +
    (if s.error != "" then [ErrorMessage(s.error)] else []) +
    (if !s.isLoading && s.error == "" then
       (if |s.history| > 0 then [RowList(Rows(s.history))] else [EmptyState])
     else [])
  }

  /** The one screen the page shows: loading first, then the error, then the rows when
      there are any, else the empty-state message. */
  function View(s: State): (b: Block)
    ensures b == LoadingMessage <==> s.isLoading
    ensures b.ErrorMessage? <==> !s.isLoading && s.error != ""
    ensures b.RowList? <==> !s.isLoading && s.error == "" && |s.history| > 0
    ensures b == EmptyState <==> !s.isLoading && s.error == "" && s.history == []
    ensures b.RowList? ==> b.rows == Rows(s.history)
    ensures b.ErrorMessage? ==> b.text == s.error
  {
    if s.isLoading then LoadingMessage
    else if s.error != "" then ErrorMessage(s.error)
    else if |s.history| > 0 then RowList(Rows(s.history))
    else EmptyState
  }

  /** In every reachable state the three conditionals show exactly one block, the one
      `View` picks: loading and error never show together. */
  lemma BlocksShowOneView(s: State)
    requires Inv(s)
    ensures Blocks(s) == [View(s)]
  {
  }

  /** Once the fetch has settled the page shows the rows of a non-empty response in service
      order, the empty-state message for an empty one (not an error), and the error message
      for a failure; never the loading message. */
  lemma ViewAfterFetch(outcome: Outcome)
    ensures var s := AfterFetch(Mounted, outcome);
            Blocks(s) == [View(s)] &&
            View(s) == match outcome
                       case Fetched(data) => if data == [] then EmptyState else RowList(Rows(data))
                       case FetchFailed => ErrorMessage(FetchError)
  {
  }

  // ---------------------------------------------------------------------------------
  // When the fetch effect runs
  // ---------------------------------------------------------------------------------

  /** React's rule for an effect at a commit: it runs at the first commit, and at a later
      one only when its dependency values differ from those of the previous commit. The
      dependency values are abstracted as integers. */
  predicate EffectRuns(previous: Option<seq<int>>, deps: seq<int>)
    ensures previous == None ==> EffectRuns(previous, deps)
    ensures previous == Some(deps) ==> !EffectRuns(previous, deps)
  {
    previous == None || previous.value != deps
  }

  /** How many times an effect runs over a series of commits, given each commit's
      dependency values and those of the commit before the series. */
  function EffectRunCount(previous: Option<seq<int>>, commits: seq<seq<int>>): (n: nat)
    ensures n <= |commits|
    ensures previous == None && commits != [] ==> n >= 1
    decreases |commits|
  {
    if commits == [] then 0
    else (if EffectRuns(previous, commits[0]) then 1 else 0) + EffectRunCount(Some(commits[0]), commits[1..])
  }

  /** The fetch effect's dependency list: empty. */
  const FetchDeps: seq<int> := []

  /** Once the effect has run with the empty list, no later commit runs it again. */
  lemma {:induction false} NoRerunAfterMount(commits: seq<seq<int>>)
    requires forall k :: 0 <= k < |commits| ==> commits[k] == FetchDeps
    ensures EffectRunCount(Some(FetchDeps), commits) == 0
    decreases |commits|
  {
    if commits != [] {
      NoRerunAfterMount(commits[1..]);
    }
  }

  /** However often the page re-renders, its fetch effect runs exactly once: at mount. */
  lemma FetchRunsOncePerMount(commits: seq<seq<int>>)
    requires commits != []
    requires forall k :: 0 <= k < |commits| ==> commits[k] == FetchDeps
    ensures EffectRunCount(None, commits) == 1
  {
    NoRerunAfterMount(commits[1..]);
  }

  // ---------------------------------------------------------------------------------
  // The component
  // ---------------------------------------------------------------------------------

  /** The mounted page: its state cells, updated in place by the fetch effect. */
  class History {
    var history: seq<Entry>
    var isLoading: bool
    var error: string
    /** How many history requests this instance has issued. */
    ghost var fetchesIssued: nat
    /** The fetch effect's dependency values at the last commit, none before mount. */
    ghost var lastDeps: Option<seq<int>>

    function Current(): State
      reads this
    {
      State(history, isLoading, error)
    }

    ghost predicate Valid()
      reads this
    {
      Inv(Current()) && fetchesIssued == 1 && lastDeps == Some(FetchDeps)
    }

    /** Mount: the initial cells, then the first commit, at which the fetch effect runs and
        issues its request. */
    constructor ()
      ensures Valid() && Current() == Mounted && fetchesIssued == 1
    {
      history, isLoading, error := [], true, "";
      fetchesIssued, lastDeps := 0, None;
      new;
      Commit();
    }

    /** A commit of a render: the fetch effect runs, issuing a request, when `EffectRuns`
        says so, and the dependency values are remembered. */
    method Commit()
      modifies this
      ensures Current() == old(Current()) && lastDeps == Some(FetchDeps)
      ensures fetchesIssued == old(fetchesIssued) + (if EffectRuns(old(lastDeps), FetchDeps) then 1 else 0)
    {
      if EffectRuns(lastDeps, FetchDeps) {
        fetchesIssued := fetchesIssued + 1;
      }
      lastDeps := Some(FetchDeps);
    }

    /** A re-render after a state change: the body is drawn again and committed, and the
        fetch is not issued again. */
    method Rerender() returns (b: Block)
      requires Valid()
      modifies this
      ensures Valid() && Current() == old(Current()) && fetchesIssued == old(fetchesIssued)
      ensures Blocks(Current()) == [b]
    {
      b := Screen();
      Commit();
    }

    /** The fetch effect after its `await`: `try`, `catch`, `finally`. Issues no new fetch.
        The one fetch settles once, while the page is still loading. */
    method FetchDone(outcome: Outcome)
      requires Valid() && isLoading
      modifies this
      ensures Valid() && Current() == AfterFetch(old(Current()), outcome)
      ensures fetchesIssued == old(fetchesIssued)
    {
      match outcome {
        case Fetched(data) =>
          history := data;
        case FetchFailed =>
          error := FetchError;
      }
      isLoading := false;
    }

    /** What the page body shows now. */
    function Screen(): (b: Block)
      reads this
      requires Valid()
      ensures Blocks(Current()) == [b]
    {
      BlocksShowOneView(Current());
      View(Current())
    }
  }
}
