/** Rolling check runs into one state, and asking GitHub only for what has changed. */
module GitHubApi {
  import opened Options

  datatype Run = Run(status: string, conclusion: Option<string>)

  datatype ChecksState = NoChecks | Running | Passed | Failed

  predicate Failing(run: Run) {
    run.conclusion.Some? && run.conclusion.value in ["failure", "timed_out", "startup_failure"]
  }

  predicate Unfinished(run: Run) {
    run.conclusion.None? && run.status != "completed"
  }

  /** One failure decides it; otherwise one unfinished run holds it open. */
  function Rolled(runs: seq<Run>): ChecksState {
    if runs == [] then NoChecks
    else if exists i :: 0 <= i < |runs| && Failing(runs[i]) then Failed
    else if exists i :: 0 <= i < |runs| && Unfinished(runs[i]) then Running
    else Passed
  }

  /** In GitHub's own words: what each roll-up means, and nothing else is one. */
  lemma RollUpMeans(runs: seq<Run>)
    ensures Rolled(runs) == NoChecks <==> runs == []
    ensures Rolled(runs) == Failed <==>
              exists i :: 0 <= i < |runs| && runs[i].conclusion in {Some("failure"), Some("timed_out"), Some("startup_failure")}
    ensures Rolled(runs) == Passed <==>
              && runs != []
              && (forall i :: 0 <= i < |runs| ==>
                    runs[i].conclusion !in {Some("failure"), Some("timed_out"), Some("startup_failure")})
              && (forall i :: 0 <= i < |runs| ==> runs[i].conclusion.Some? || runs[i].status == "completed")
    ensures Rolled(runs) == Running <==>
              && (forall i :: 0 <= i < |runs| ==>
                    runs[i].conclusion !in {Some("failure"), Some("timed_out"), Some("startup_failure")})
              && (exists i :: 0 <= i < |runs| && runs[i].conclusion.None? && runs[i].status != "completed")
  {
    forall i | 0 <= i < |runs|
      ensures Failing(runs[i]) <==> runs[i].conclusion in {Some("failure"), Some("timed_out"), Some("startup_failure")}
    {
    }
  }

  method RollUp(runs: seq<Run>) returns (state: ChecksState)
    ensures state == Rolled(runs)
  {
    if runs == [] {
      return NoChecks;
    }
    var running := false;
    for i := 0 to |runs|
      invariant forall k :: 0 <= k < i ==> !Failing(runs[k])
      invariant running <==> exists k :: 0 <= k < i && Unfinished(runs[k])
    {
      var run := runs[i];
      match run.conclusion {
        case Some(word) =>
          if word == "failure" || word == "timed_out" || word == "startup_failure" {
            return Failed;
          }
        case None =>
          if run.status != "completed" {
            running := true;
          }
      }
    }
    state := if running then Running else Passed;
  }

  /** How bad a state is; nothing at all is the least. */
  function Weight(state: ChecksState): nat {
    match state
    case NoChecks => 0
    case Passed => 1
    case Running => 2
    case Failed => 3
  }

  /** Two sets of runs together are as bad as the worse of the two. */
  lemma TheWorseDecides(a: seq<Run>, b: seq<Run>)
    ensures Weight(Rolled(a + b)) == if Weight(Rolled(a)) >= Weight(Rolled(b)) then Weight(Rolled(a)) else Weight(Rolled(b))
  {
    var all := a + b;
    assert forall i :: 0 <= i < |a| ==> all[i] == a[i];
    assert forall i :: 0 <= i < |b| ==> all[|a| + i] == b[i];
    assert forall i :: |a| <= i < |all| ==> all[i] == b[i - |a|];
  }

  lemma SameMembers(a: seq<Run>, b: seq<Run>, i: nat) returns (j: nat)
    requires multiset(a) == multiset(b) && i < |a|
    ensures j < |b| && b[j] == a[i]
  {
    assert a[i] in multiset(b);
    j :| 0 <= j < |b| && b[j] == a[i];
  }

  lemma NoBetter(a: seq<Run>, b: seq<Run>)
    requires multiset(a) == multiset(b)
    ensures Weight(Rolled(a)) <= Weight(Rolled(b))
  {
    assert |a| == |multiset(a)| == |multiset(b)| == |b|;
    if i :| 0 <= i < |a| && Failing(a[i]) {
      var j := SameMembers(a, b, i);
    }
    if i :| 0 <= i < |a| && Unfinished(a[i]) {
      var j := SameMembers(a, b, i);
    }
  }

  /** The order GitHub lists runs in does not matter. */
  lemma OrderDoesNotMatter(a: seq<Run>, b: seq<Run>)
    requires multiset(a) == multiset(b)
    ensures Rolled(a) == Rolled(b)
  {
    NoBetter(a, b);
    NoBetter(b, a);
  }

  // ---- conditional requests ----

  /** GitHub's answer to a conditional GET. `Garbled` is a success whose body cannot be read. */
  datatype Response<T> =
    | NotModified
    | Success(etag: Option<string>, body: T)
    | Garbled(etag: Option<string>)
    | Refused

  datatype Conditional<T> = Fresh(body: T) | Unchanged | Failure

  /** The tag to send from now on: the last one received, even under a body that could not be read. */
  function Remembered<T>(etags: map<string, string>, path: string, response: Response<T>): map<string, string> {
    match response
    case Success(Some(etag), _) => etags[path := etag]
    case Garbled(Some(etag)) => etags[path := etag]
    case _ => etags
  }

  class Client {
    var etags: map<string, string>

    constructor ()
      ensures etags == map[]
    {
      etags := map[];
    }

    method Get<T>(path: string, response: Response<T>) returns (answer: Conditional<T>)
      modifies this
      ensures etags == Remembered(old(etags), path, response)
      ensures answer == match response case NotModified => Unchanged case Success(_, body) => Fresh(body) case _ => Failure
      ensures (response.Success? || response.Garbled?) && response.etag.Some? ==> etags == old(etags)[path := response.etag.value]
      ensures !((response.Success? || response.Garbled?) && response.etag.Some?) ==> etags == old(etags)
    {
      if response.NotModified? {
        return Unchanged;
      }
      if response.Refused? {
        return Failure;
      }
      if response.etag.Some? {
        etags := etags[path := response.etag.value];
      }
      answer := if response.Success? then Fresh(response.body) else Failure;
    }
  }

  // ---- what an unchanged answer is worth ----

  /** One resource as the server has it. */
  datatype Doc<T> = Doc(tag: string, body: T)

  /** The resource, every version it has had, the tag the client would send, and the last body it was given. */
  datatype Watched<T(!new, ==)> = Watched(now: Doc<T>, past: set<Doc<T>>, sent: Option<string>, last: Option<T>)

  /** The resource changes, or is asked for and answered, with or without a tag in the answer's headers. */
  datatype Move<T> = Publish(doc: Doc<T>) | Ask(tagged: bool)

  function Unasked<T(!new, ==)>(doc: Doc<T>): Watched<T> {
    Watched(doc, {doc}, None, None)
  }

  /** The server has not changed what it was last asked for under the tag it is sent. */
  predicate StillTagged<T(!new, ==)>(w: Watched<T>) {
    w.sent == Some(w.now.tag)
  }

  function Replaced<T(!new, ==)>(w: Watched<T>, doc: Doc<T>): Watched<T> {
    w.(now := doc, past := w.past + {doc})
  }

  /** What an honest server answers a conditional GET. */
  function Answer<T(!new, ==)>(w: Watched<T>, tagged: bool): Response<T> {
    if StillTagged(w) then NotModified else Success(if tagged then Some(w.now.tag) else None, w.now.body)
  }

  /** What the client has once it has asked. */
  function Asked<T(!new, ==)>(w: Watched<T>, tagged: bool): Watched<T> {
    match Answer(w, tagged)
    case NotModified => w
    case Success(etag, body) => w.(sent := if etag.Some? then etag else w.sent, last := Some(body))
  }

  /** The client as written is the one that is watched: after either's request the tag it holds is the same. */
  lemma AskedIsGot<T(!new)>(w: Watched<T>, tagged: bool, etags: map<string, string>, path: string)
    requires w.sent == if path in etags then Some(etags[path]) else None
    ensures var later := Remembered(etags, path, Answer(w, tagged));
            Asked(w, tagged).sent == if path in later then Some(later[path]) else None
  {
  }

  function Next<T(!new, ==)>(w: Watched<T>, move: Move<T>): Watched<T> {
    match move
    case Publish(doc) => Replaced(w, doc)
    case Ask(tagged) => Asked(w, tagged)
  }

  /** A tag is never used for two different bodies. */
  ghost predicate TagsTell<T(!new)>(past: set<Doc<T>>) {
    forall a, b :: a in past && b in past && a.tag == b.tag ==> a == b
  }

  ghost function Watch<T(!new)>(first: Doc<T>, moves: seq<Move<T>>): Watched<T> {
    if moves == [] then Unasked(first)
    else Next(Watch(first, moves[..|moves| - 1]), moves[|moves| - 1])
  }

  /** The tag the client would send is the one its last body came under. */
  ghost predicate InStep<T(!new)>(w: Watched<T>) {
    && w.now in w.past
    && (w.sent.Some? ==> w.last.Some? && Doc(w.sent.value, w.last.value) in w.past)
  }

  /** In step, and with tags that tell: after asking, the last body is the server's. */
  lemma AskedIsCurrent<T(!new)>(w: Watched<T>, tagged: bool)
    requires InStep(w) && TagsTell(w.past)
    ensures Asked(w, tagged).last == Some(w.now.body)
  {
  }

  lemma {:induction false} StaysInStep<T(!new)>(first: Doc<T>, moves: seq<Move<T>>)
    requires forall i :: 0 <= i < |moves| && moves[i].Ask? ==> moves[i].tagged
    ensures InStep(Watch(first, moves))
  {
    if moves == [] {
    } else {
      StaysInStep(first, moves[..|moves| - 1]);
    }
  }

  /**
   On every run in which answers carry their tags and tags tell bodies apart:
   right after the resource is asked for, fresh or unchanged, the last body
   received is the body the server has.
   */
  lemma UnchangedMeansCurrent<T(!new)>(first: Doc<T>, moves: seq<Move<T>>)
    requires moves != [] && moves[|moves| - 1].Ask?
    requires forall i :: 0 <= i < |moves| && moves[i].Ask? ==> moves[i].tagged
    requires TagsTell(Watch(first, moves).past)
    ensures Watch(first, moves).last == Some(Watch(first, moves).now.body)
  {
    var before := moves[..|moves| - 1];
    StaysInStep(first, before);
    var w := Watch(first, before);
    assert Watch(first, moves) == Next(w, moves[|moves| - 1]);
    AskedIsCurrent(w, moves[|moves| - 1].tagged);
  }

  /** One untagged answer is enough to break it: the older tag is kept, and the older body coming back goes unnoticed. */
  lemma UntaggedAnswerGoesStale<T(!new)>(a: Doc<T>, b: Doc<T>)
    requires a.tag != b.tag && a.body != b.body
    ensures var moves := [Ask(true), Publish(b), Ask(false), Publish(a), Ask(true)];
            TagsTell(Watch(a, moves).past) && Watch(a, moves).last == Some(b.body) != Some(Watch(a, moves).now.body)
  {
    var moves: seq<Move<T>> := [Ask(true), Publish(b), Ask(false), Publish(a), Ask(true)];
    assert moves[..4] == [Ask(true), Publish(b), Ask(false), Publish(a)];
    assert moves[..4][..3] == [Ask(true), Publish(b), Ask(false)];
    assert moves[..4][..3][..2] == [Ask(true), Publish(b)];
    assert moves[..4][..3][..2][..1] == [Ask(true)];
    assert moves[..4][..3][..2][..1][..0] == [];
    assert Watch(a, moves[..4][..3][..2][..1]) == Watched(a, {a}, Some(a.tag), Some(a.body));
    assert Watch(a, moves[..4][..3]) == Watched(b, {a, b}, Some(a.tag), Some(b.body));
  }
}
