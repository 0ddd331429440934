/** `generate_user_id` of app.py: a user id is the first ten characters of the
    name with its spaces removed and lower-cased, followed by a random suffix:
    six random characters on the first attempt, the attempt number on two
    digits and four random characters on the later ones. The id is cut to 20
    characters, and the first one the users collection does not hold is
    taken; after 100 attempts the function raises. The random drawings, the
    availability of the database and the ids it holds are parameters. */
module UserIds {
  import opened PyText

  const BASE_LENGTH := 10
  const MAX_ID_LENGTH := 20
  const MAX_ATTEMPTS := 100
  const FIRST_DRAW_LENGTH := 6
  const LATER_DRAW_LENGTH := 4

  /** `name.replace(" ", "").lower()[:10]`. */
  function Base(name: string): (r: string)
    ensures |r| <= BASE_LENGTH
  {
    var squeezed := AsciiLower(RemoveSpaces(name));
    if |squeezed| <= BASE_LENGTH then squeezed else squeezed[..BASE_LENGTH]
  }

  /** The base is the squeezed, lower-cased name when that has at most ten
      characters, and its first ten characters otherwise. */
  lemma {:induction false} BaseIsPrefix(name: string)
    ensures var squeezed := AsciiLower(RemoveSpaces(name));
            Base(name) <= squeezed
            && (|squeezed| <= BASE_LENGTH ==> Base(name) == squeezed)
            && (|squeezed| > BASE_LENGTH ==> |Base(name)| == BASE_LENGTH)
  {
  }

  /** The base holds no space and no upper-case ASCII letter. */
  lemma {:induction false} BaseIsSqueezedLowerCase(name: string)
    ensures ' ' !in Base(name)
    ensures forall i :: 0 <= i < |Base(name)| ==> !('A' <= Base(name)[i] <= 'Z')
  {
    var squeezed := RemoveSpaces(name);
    var b := Base(name);
    forall i | 0 <= i < |b|
      ensures b[i] != ' ' && !('A' <= b[i] <= 'Z')
    {
      assert b[i] == AsciiLowerChar(squeezed[i]);
      assert squeezed[i] in squeezed;
    }
  }

  /** The suffix of attempt `counter` from its random drawing. */
  function Suffix(counter: nat, draw: string): string {
    if counter == 1 then draw else Pad2(counter) + draw
  }

  /** `f"{base}{suffix}"` cut to 20 characters. */
  function IdFrom(base: string, counter: nat, draw: string): (r: string)
    ensures |r| <= MAX_ID_LENGTH
  {
    var id := base + Suffix(counter, draw);
    if |id| > MAX_ID_LENGTH then id[..MAX_ID_LENGTH] else id
  }

  /** The id tried at attempt `counter`. */
  function Candidate(name: string, counter: nat, draw: string): (r: string)
    ensures |r| <= MAX_ID_LENGTH
  {
    IdFrom(Base(name), counter, draw)
  }

  /** Every candidate starts with the whole base and is a prefix of the base
      followed by the suffix. */
  lemma {:induction false} CandidateStartsWithBase(name: string, counter: nat, draw: string)
    ensures Base(name) <= Candidate(name, counter, draw)
    ensures Candidate(name, counter, draw) <= Base(name) + Suffix(counter, draw)
  {
  }

  function Pow10(k: nat): nat {
    if k == 0 then 1 else 10 * Pow10(k - 1)
  }

  /** A natural number below `10^k` is written with at most `k` digits. */
  lemma {:induction false} NatToStringLength(n: nat, k: nat)
    requires k >= 1 && n < Pow10(k)
    ensures |NatToString(n)| <= k
  {
    if n >= 10 {
      NatToStringLength(n / 10, k - 1);
    }
  }

  /** Attempt numbers up to 100 take at most three characters. */
  lemma {:induction false} AttemptNumberLength(counter: nat)
    requires counter <= MAX_ATTEMPTS
    ensures |Pad2(counter)| <= 3
  {
    assert Pow10(3) == 1000 by {
      assert Pow10(1) == 10;
      assert Pow10(2) == 100;
    }
    NatToStringLength(counter, 3);
  }

  /** With drawings of the lengths the source draws (6, then 4) the cut to 20
      characters never applies: at most 10 + 3 + 4 characters. */
  lemma {:induction false} CandidateNeverCut(name: string, counter: nat, draw: string)
    requires 1 <= counter <= MAX_ATTEMPTS
    requires |draw| == if counter == 1 then FIRST_DRAW_LENGTH else LATER_DRAW_LENGTH
    ensures Candidate(name, counter, draw) == Base(name) + Suffix(counter, draw)
    ensures |Candidate(name, counter, draw)| <= BASE_LENGTH + 3 + LATER_DRAW_LENGTH
  {
    AttemptNumberLength(counter);
  }

  /** One pass of the loop body, statement by statement: the suffix for this
      attempt, the id, and the cut to 20 characters. `IdFrom` is the function
      that specifies it, from which the list of candidates is built. */
  method Attempt(base: string, counter: nat, draw: string) returns (userId: string)
    ensures userId == IdFrom(base, counter, draw)
  {
    var suffix := if counter == 1 then draw else Pad2(counter) + draw;
    userId := base + suffix;
    if |userId| > MAX_ID_LENGTH {
      userId := userId[..MAX_ID_LENGTH];
    }
  }

  datatype IdResult = Generated(id: string) | Exhausted

  /** `not db or not <users/id>.exists`. */
  predicate Available(id: string, dbAvailable: bool, taken: set<string>) {
    !dbAvailable || id !in taken
  }

  /** The ids of attempts 1 to 100 for a base, attempt `k` using the
      drawing `draws[k - 1]`. */
  function CandidatesFrom(base: string, draws: seq<string>): (ids: seq<string>)
    requires |draws| >= MAX_ATTEMPTS
    ensures |ids| == MAX_ATTEMPTS
  {
    seq(MAX_ATTEMPTS, k requires 0 <= k < MAX_ATTEMPTS => IdFrom(base, k + 1, draws[k]))
  }

  /** The ids of attempts 1 to 100 for a name. */
  function Candidates(name: string, draws: seq<string>): (ids: seq<string>)
    requires |draws| >= MAX_ATTEMPTS
    ensures |ids| == MAX_ATTEMPTS
  {
    CandidatesFrom(Base(name), draws)
  }

  /** The first available id of `ids` from position `i` on, or Exhausted. */
  function FirstAvailable(ids: seq<string>, dbAvailable: bool, taken: set<string>, i: nat): (r: IdResult)
    decreases |ids| - i
    ensures r.Generated? ==> i < |ids| && r.id in ids[i..] && Available(r.id, dbAvailable, taken)
  {
    if i >= |ids| then Exhausted
    else if Available(ids[i], dbAvailable, taken) then Generated(ids[i])
    else FirstAvailable(ids, dbAvailable, taken, i + 1)
  }

  /** An id found from position `i` on is the id at some position `k` at or
      after `i`, available, with every position in between taken. */
  lemma {:induction false} FirstAvailableFound(ids: seq<string>, dbAvailable: bool, taken: set<string>, i: nat)
    ensures var r := FirstAvailable(ids, dbAvailable, taken, i);
            r.Generated? ==>
              exists k :: i <= k < |ids| && r.id == ids[k] && Available(ids[k], dbAvailable, taken)
                          && forall j :: i <= j < k ==> !Available(ids[j], dbAvailable, taken)
    decreases |ids| - i
  {
    if i < |ids| && !Available(ids[i], dbAvailable, taken) {
      FirstAvailableFound(ids, dbAvailable, taken, i + 1);
    }
  }

  /** Exhausted exactly when every id from position `i` on is taken. */
  lemma {:induction false} FirstAvailableExhausted(ids: seq<string>, dbAvailable: bool, taken: set<string>, i: nat)
    ensures FirstAvailable(ids, dbAvailable, taken, i).Exhausted? <==>
              forall k :: i <= k < |ids| ==> !Available(ids[k], dbAvailable, taken)
    decreases |ids| - i
  {
    if i < |ids| && !Available(ids[i], dbAvailable, taken) {
      FirstAvailableExhausted(ids, dbAvailable, taken, i + 1);
    }
  }

  /** Without a database the first candidate is taken, whatever ids exist. */
  lemma {:induction false} NoDatabaseFirstCandidate(name: string, draws: seq<string>, taken: set<string>)
    requires |draws| >= MAX_ATTEMPTS
    ensures FirstAvailable(Candidates(name, draws), false, taken, 0) == Generated(Candidate(name, 1, draws[0]))
  {
  }


  /** A taken id passes the search on to the next position. */
  lemma {:induction false} SkipTaken(ids: seq<string>, dbAvailable: bool, taken: set<string>, i: nat)
    requires i < |ids| && !Available(ids[i], dbAvailable, taken)
    ensures FirstAvailable(ids, dbAvailable, taken, i) == FirstAvailable(ids, dbAvailable, taken, i + 1)
  {
  }

  /** `generate_user_id(name)`: the first of the 100 candidates the users
      collection does not hold; Exhausted is the exception raised after 100
      attempts. */
  method GenerateUserId(name: string, draws: seq<string>, dbAvailable: bool, taken: set<string>) returns (r: IdResult)
    requires |draws| >= MAX_ATTEMPTS
    ensures r == FirstAvailable(Candidates(name, draws), dbAvailable, taken, 0)
  {
    var base := Base(name);
    r := TryCandidates(base, draws, dbAvailable, taken);
  }

  /** The `while` loop of `generate_user_id` once the base is computed: the
      attempts in order until one is available or 100 have been tried. */
  method TryCandidates(base: string, draws: seq<string>, dbAvailable: bool, taken: set<string>) returns (r: IdResult)
    requires |draws| >= MAX_ATTEMPTS
    ensures r == FirstAvailable(CandidatesFrom(base, draws), dbAvailable, taken, 0)
  {
    ghost var ids := CandidatesFrom(base, draws);
    var counter := 1;
    while true
      invariant 1 <= counter <= MAX_ATTEMPTS
      invariant FirstAvailable(ids, dbAvailable, taken, counter - 1) == FirstAvailable(ids, dbAvailable, taken, 0)
      decreases MAX_ATTEMPTS - counter
    {
      var userId := Attempt(base, counter, draws[counter - 1]);
      assert userId == ids[counter - 1];
      if !dbAvailable || userId !in taken {
        return Generated(userId);
      }
      SkipTaken(ids, dbAvailable, taken, counter - 1);
      counter := counter + 1;
      if counter > MAX_ATTEMPTS {
        return Exhausted;
      }
    }
  }
}
