/**
 * `Emitter::emit` of the older snapshot: for every CURRENT entry of a
 * lightweight media list, the fuzzy winner among the extras is serialised and
 * sent over a channel as `Emitted { index, key, json }`. The first failure to
 * serialise or to send ends the run with that error.
 */
module Emitter {
  import opened Wrappers
  import opened Entities
  import opened Matcher

  /** `MediaLite`: titles and status only, all present. */
  datatype MediaLite = MediaLite(title: string, altTitle: string, status: string)

  /** The message sent for one linked entry; `index` is its position in the media list. */
  datatype Emitted = Emitted(index: nat, key: string, json: string)

  datatype EmitError = SerializeError(reason: string) | SendError

  /** The fuzzy choice for one lightweight entry. */
  function ChoiceFor<E>(e: MediaLite, extras: seq<E>, titleOf: E -> string, threshold: real, sim: Similarity): Option<E>
  {
    FuzzyChoice(e.title, e.altTitle, extras, titleOf, threshold, sim)
  }

  /** The (index, extra) pairs `emit` sets out to send, in media order. */
  function Wanted<E>(media: seq<MediaLite>, extras: seq<E>, titleOf: E -> string, threshold: real, sim: Similarity)
    : seq<(nat, E)>
    decreases |media|
  {
    if media == [] then []
    else
      var n := |media| - 1;
      var pre := Wanted(media[..n], extras, titleOf, threshold, sim);
      if media[n].status == Current then
        match ChoiceFor(media[n], extras, titleOf, threshold, sim)
        case Some(x) => pre + [(n, x)]
        case None => pre
      else pre
  }

  /**
   * The result and the messages delivered when the pairs `ws` are serialised
   * and sent in order. The receiver takes the first `accepts` messages and is
   * then dropped, so every later `send` fails.
   */
  function Outcome<E>(ws: seq<(nat, E)>, key: string, serialize: E -> Result<string, string>, accepts: nat)
    : (Result<(), EmitError>, seq<Emitted>)
    decreases |ws|
  {
    if ws == [] then (Ok(()), [])
    else
      var n := |ws| - 1;
      var (res, sent) := Outcome(ws[..n], key, serialize, accepts);
      if res.Err? then (res, sent)
      else match serialize(ws[n].1)
        case Err(reason) => (Err(SerializeError(reason)), sent)
        case Ok(json) =>
          if |sent| < accepts then (Ok(()), sent + [Emitted(ws[n].0, key, json)]) else (Err(SendError), sent)
  }

  /** Each pair names a CURRENT entry of `media` together with that entry's fuzzy winner. */
  ghost predicate Sound<E>(ws: seq<(nat, E)>, media: seq<MediaLite>, extras: seq<E>, titleOf: E -> string,
                           threshold: real, sim: Similarity)
  {
    forall k :: 0 <= k < |ws| ==>
      ws[k].0 < |media| && media[ws[k].0].status == Current
      && ChoiceFor(media[ws[k].0], extras, titleOf, threshold, sim) == Some(ws[k].1)
  }

  ghost predicate IncreasingIndices<E>(ws: seq<(nat, E)>)
  {
    forall k, l :: 0 <= k < l < |ws| ==> ws[k].0 < ws[l].0
  }

  /** Every wanted pair is a CURRENT entry with its fuzzy winner, in strictly increasing index order. */
  lemma {:induction false} WantedSound<E>(media: seq<MediaLite>, extras: seq<E>, titleOf: E -> string, threshold: real,
                                          sim: Similarity)
    ensures Sound(Wanted(media, extras, titleOf, threshold, sim), media, extras, titleOf, threshold, sim)
    ensures IncreasingIndices(Wanted(media, extras, titleOf, threshold, sim))
    decreases |media|
  {
    if media != [] {
      var n := |media| - 1;
      var pre := media[..n];
      WantedSound(pre, extras, titleOf, threshold, sim);
      var wp := Wanted(pre, extras, titleOf, threshold, sim);
      var ws := Wanted(media, extras, titleOf, threshold, sim);
      var c := ChoiceFor(media[n], extras, titleOf, threshold, sim);
      forall k | 0 <= k < |wp| ensures wp[k].0 < n && media[wp[k].0] == pre[wp[k].0] { }
      if media[n].status == Current && c.Some? {
        assert ws == wp + [(n, c.value)];
      } else {
        assert ws == wp;
      }
    }
  }

  /** Every CURRENT entry that has a fuzzy winner is among the wanted pairs. */
  lemma {:induction false} WantedComplete<E>(media: seq<MediaLite>, extras: seq<E>, titleOf: E -> string, threshold: real,
                                             sim: Similarity, i: nat) returns (k: nat)
    requires i < |media| && media[i].status == Current && ChoiceFor(media[i], extras, titleOf, threshold, sim).Some?
    ensures k < |Wanted(media, extras, titleOf, threshold, sim)|
    ensures Wanted(media, extras, titleOf, threshold, sim)[k] == (i, ChoiceFor(media[i], extras, titleOf, threshold, sim).value)
    decreases |media|
  {
    var n := |media| - 1;
    var pre := media[..n];
    var ws := Wanted(media, extras, titleOf, threshold, sim);
    var wp := Wanted(pre, extras, titleOf, threshold, sim);
    var c := ChoiceFor(media[n], extras, titleOf, threshold, sim);
    if media[n].status == Current && c.Some? {
      assert ws == wp + [(n, c.value)];
    } else {
      assert ws == wp;
    }
    if i < n {
      assert pre[i] == media[i];
      k := WantedComplete(pre, extras, titleOf, threshold, sim, i);
      assert ws[k] == wp[k];
    } else {
      k := |ws| - 1;
    }
  }

  /**
   * The messages delivered are the serialised wanted pairs, in order, up to
   * the first pair that does not serialise or the first send after the
   * receiver was dropped; that failure is the result.
   */
  lemma {:induction false} OutcomeSpec<E>(ws: seq<(nat, E)>, key: string, serialize: E -> Result<string, string>, accepts: nat)
    ensures var (res, sent) := Outcome(ws, key, serialize, accepts);
      && |sent| <= |ws| && |sent| <= accepts
      && (forall k :: 0 <= k < |sent| ==>
            serialize(ws[k].1).Ok? && sent[k] == Emitted(ws[k].0, key, serialize(ws[k].1).value))
      && (res.Ok? <==> |sent| == |ws|)
      && (res.Err? ==>
            match serialize(ws[|sent|].1)
            case Err(reason) => res == Err(SerializeError(reason))
            case Ok(_) => |sent| == accepts && res == Err(SendError))
    decreases |ws|
  {
    if ws != [] {
      var n := |ws| - 1;
      OutcomeSpec(ws[..n], key, serialize, accepts);
      forall k | 0 <= k < n ensures ws[..n][k] == ws[k] { }
    }
  }

  /**
   * With a receiver that outlives every send and every extra serialisable,
   * all wanted pairs are delivered.
   */
  lemma AllDelivered<E>(ws: seq<(nat, E)>, key: string, serialize: E -> Result<string, string>, accepts: nat)
    requires |ws| <= accepts
    requires forall k :: 0 <= k < |ws| ==> serialize(ws[k].1).Ok?
    ensures Outcome(ws, key, serialize, accepts).0 == Ok(())
  {
    OutcomeSpec(ws, key, serialize, accepts);
  }

  lemma {:induction false} WantedPrefix<E>(media: seq<MediaLite>, n: nat, extras: seq<E>, titleOf: E -> string,
                                           threshold: real, sim: Similarity)
    requires n <= |media|
    ensures Wanted(media[..n], extras, titleOf, threshold, sim) <= Wanted(media, extras, titleOf, threshold, sim)
    decreases |media|
  {
    if n < |media| {
      var m := |media| - 1;
      var pre := media[..m];
      WantedPrefix(pre, n, extras, titleOf, threshold, sim);
      assert pre[..n] == media[..n];
    } else {
      assert media[..n] == media;
    }
  }

  /** After the first failure nothing more is sent and the result stays that failure. */
  lemma {:induction false} OutcomeSticky<E>(a: seq<(nat, E)>, b: seq<(nat, E)>, key: string,
                                            serialize: E -> Result<string, string>, accepts: nat)
    requires a <= b && Outcome(a, key, serialize, accepts).0.Err?
    ensures Outcome(b, key, serialize, accepts) == Outcome(a, key, serialize, accepts)
    decreases |b|
  {
    if |b| > |a| {
      var n := |b| - 1;
      assert a <= b[..n];
      OutcomeSticky(a, b[..n], key, serialize, accepts);
    } else {
      assert a == b;
    }
  }

  /** One more media entry adds its own pair to the plan, if it has one. */
  lemma WantedSnoc<E>(media: seq<MediaLite>, i: nat, extras: seq<E>, titleOf: E -> string, threshold: real,
                      sim: Similarity)
    requires i < |media|
    ensures Wanted(media[..i + 1], extras, titleOf, threshold, sim) ==
      Wanted(media[..i], extras, titleOf, threshold, sim) +
      (if media[i].status == Current && ChoiceFor(media[i], extras, titleOf, threshold, sim).Some?
       then [(i, ChoiceFor(media[i], extras, titleOf, threshold, sim).value)] else [])
  {
    assert media[..i + 1][..i] == media[..i];
  }

  /** Sending one more pair after a clean run: its serialisation and delivery decide. */
  lemma OutcomeSnoc<E>(ws: seq<(nat, E)>, w: (nat, E), key: string, serialize: E -> Result<string, string>,
                       accepts: nat)
    requires Outcome(ws, key, serialize, accepts).0.Ok?
    ensures var sent := Outcome(ws, key, serialize, accepts).1;
      Outcome(ws + [w], key, serialize, accepts) ==
        match serialize(w.1)
        case Err(reason) => (Err(SerializeError(reason)), sent)
        case Ok(json) => if |sent| < accepts then (Ok(()), sent + [Emitted(w.0, key, json)]) else (Err(SendError), sent)
  {
    assert (ws + [w])[..|ws|] == ws;
  }

  method Emit<E>(media: seq<MediaLite>, extras: seq<E>, titleOf: E -> string, key: string, threshold: real,
                 sim: Similarity, serialize: E -> Result<string, string>, accepts: nat)
    returns (res: Result<(), EmitError>, sent: seq<Emitted>)
    ensures (res, sent) == Outcome(Wanted(media, extras, titleOf, threshold, sim), key, serialize, accepts)
  {
    sent := [];
    ghost var ws: seq<(nat, E)> := [];
    for index := 0 to |media|
      invariant ws == Wanted(media[..index], extras, titleOf, threshold, sim)
      invariant Outcome(ws, key, serialize, accepts) == (Ok(()), sent)
    {
      var entry := media[index];
      WantedSnoc(media, index, extras, titleOf, threshold, sim);
      if entry.status == Current {
        var chosen := FuzzyPick(entry.title, entry.altTitle, extras, titleOf, threshold, sim);
        if chosen.Some? {
          OutcomeSnoc(ws, (index, chosen.value), key, serialize, accepts);
          ws := ws + [(index, chosen.value)];
          var json := serialize(chosen.value);
          if json.Err? || |sent| >= accepts {
            res := if json.Err? then Err(SerializeError(json.error)) else Err(SendError);
            WantedPrefix(media, index + 1, extras, titleOf, threshold, sim);
            OutcomeSticky(ws, Wanted(media, extras, titleOf, threshold, sim), key, serialize, accepts);
            return;
          }
          sent := sent + [Emitted(index, key, json.value)];
        }
      }
    }
    assert media[..|media|] == media;
    res := Ok(());
  }

  /**
   * The behaviour of the emitter's test case, for any similarity under which
   * "gintama" clears the threshold and scores at least as high as the other
   * two titles, any serialiser that accepts the first entry, and a receiver
   * that takes at least one message.
   */
  lemma GintamaExample(threshold: real, sim: Similarity, serialize: ScheduleEntry -> Result<string, string>, accepts: nat)
    requires Top(sim, "Gintama", "Gin Tama", "gintama") > threshold
    requires Top(sim, "Gintama", "Gin Tama", "naruto") <= Top(sim, "Gintama", "Gin Tama", "gintama")
    requires Top(sim, "Gintama", "Gin Tama", "tamako market") <= Top(sim, "Gintama", "Gin Tama", "gintama")
    requires serialize(ScheduleEntry("gintama", Saturday, "00:00")).Ok?
    requires accepts >= 1
    ensures
      var media := [MediaLite("Gintama", "Gin Tama", "CURRENT")];
      var schedules := [ScheduleEntry("gintama", Saturday, "00:00"), ScheduleEntry("naruto", Monday, "00:00"),
                        ScheduleEntry("tamako market", Friday, "00:00")];
      Outcome(Wanted(media, schedules, ScheduleTitle, threshold, sim), "schedule", serialize, accepts)
        == (Ok(()), [Emitted(0, "schedule", serialize(schedules[0]).value)])
  {
    var media := [MediaLite("Gintama", "Gin Tama", "CURRENT")];
    var schedules := [ScheduleEntry("gintama", Saturday, "00:00"), ScheduleEntry("naruto", Monday, "00:00"),
                      ScheduleEntry("tamako market", Friday, "00:00")];
    var ts := TitlesOf(schedules, ScheduleTitle);
    assert ts == ["gintama", "naruto", "tamako market"];
    FuzzyChoiceOfWinner("Gintama", "Gin Tama", schedules, ScheduleTitle, threshold, sim, 0);
    assert ChoiceFor(media[0], schedules, ScheduleTitle, threshold, sim) == Some(schedules[0]);
    assert media[..0] == [];
    var ws := Wanted(media, schedules, ScheduleTitle, threshold, sim);
    assert ws == [(0, schedules[0])];
    assert ws[..0] == [];
    assert Outcome(ws[..0], "schedule", serialize, accepts) == (Ok(()), []);
    var json := serialize(schedules[0]).value;
    assert serialize(ws[0].1) == Ok(json);
    assert Outcome(ws, "schedule", serialize, accepts) == (Ok(()), [] + [Emitted(0, "schedule", json)]);
    assert [] + [Emitted(0, "schedule", json)] == [Emitted(0, "schedule", json)];
    assert Outcome(Wanted(media, schedules, ScheduleTitle, threshold, sim), "schedule", serialize, accepts) == (Ok(()), [Emitted(0, "schedule", json)]);
  }
}
