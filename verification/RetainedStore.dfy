// Retained files: any number of uploads at once, each saving under the precondition that its key is free.
module RetainedStore {
  import opened Wrappers
  import opened ResumableStore

  datatype Stage = Saving | Comparing | Verifying | Stored | Failed(error: StorageError)

  datatype Upload = Upload(key: string, bytes: Bytes, stage: Stage)

  datatype World = World(objects: map<string, Bytes>, uploads: map<nat, Upload>)

  // What becomes of one attempt to save: it does not arrive; it does and is answered; its answer is lost, and the
  // storage client gives up or tries again.
  datatype SaveFate = Undelivered | Heard | LostForGood | LostAndRetried

  datatype Event =
    | Begun(id: nat, key: string, bytes: Bytes)
    | Saved(id: nat, fate: SaveFate)
    | Read(id: nat, answered: bool)
    | Deleted(key: string)

  function At(w: World, id: nat, stage: Stage): World
    requires id in w.uploads
  {
    w.(uploads := w.uploads[id := w.uploads[id].(stage := stage)])
  }

  // A save creates the object only where there is none.
  function Save(w: World, id: nat, fate: SaveFate): World
    requires id in w.uploads
  {
    var u := w.uploads[id];
    var free := u.key !in w.objects;
    var after := if fate != Undelivered && free then w.(objects := w.objects[u.key := u.bytes]) else w;
    match fate
    case Undelivered => At(w, id, Failed(ProviderFailure))
    case Heard => At(after, id, if free then Verifying else Comparing)
    case LostForGood => At(after, id, Failed(ProviderFailure))
    case LostAndRetried => after
  }

  // Reading the object back, after a conflict or after a save.
  function ReadBack(w: World, id: nat, answered: bool): World
    requires id in w.uploads
  {
    var u := w.uploads[id];
    var unread := if u.stage == Comparing then ProviderFailure else IntegrityFailure;
    if !answered || u.key !in w.objects then At(w, id, Failed(unread))
    else if w.objects[u.key] == u.bytes then At(w, id, Stored)
    else At(w, id, Failed(IntegrityFailure))
  }

  function Step(w: World, e: Event): World {
    match e
    case Begun(id, key, bytes) =>
      if id in w.uploads then w
      else w.(uploads := w.uploads[id := Upload(key, bytes, Saving)])
    case Saved(id, fate) => if id in w.uploads && w.uploads[id].stage == Saving then Save(w, id, fate) else w
    case Read(id, answered) =>
      if id in w.uploads && (w.uploads[id].stage == Comparing || w.uploads[id].stage == Verifying) then
        ReadBack(w, id, answered)
      else w
    case Deleted(key) => w.(objects := w.objects - {key})
  }

  function Run(w: World, events: seq<Event>): World
    decreases |events|
  {
    if events == [] then w else Run(Step(w, events[0]), events[1..])
  }

  // Every upload that succeeded at a key left its bytes there.
  predicate Holds(w: World, key: string) {
    forall id <- w.uploads :: w.uploads[id].key == key && w.uploads[id].stage == Stored ==>
      key in w.objects && w.objects[key] == w.uploads[id].bytes
  }

  lemma StepKeepsBytes(w: World, e: Event, key: string)
    requires e != Deleted(key)
    ensures key in w.objects ==> key in Step(w, e).objects && Step(w, e).objects[key] == w.objects[key]
    ensures Holds(w, key) ==> Holds(Step(w, e), key)
  {
  }

  // No step changes what an upload carries, and it succeeds in exactly one way.
  lemma StepStores(w: World, e: Event, id: nat)
    ensures id in w.uploads ==>
              id in Step(w, e).uploads
              && Step(w, e).uploads[id] == w.uploads[id].(stage := Step(w, e).uploads[id].stage)
    ensures IsStored(Step(w, e), id) && !IsStored(w, id) ==> e == Read(id, true) && Matches(w, id)
  {
  }

  predicate IsStored(w: World, id: nat) {
    id in w.uploads && w.uploads[id].stage == Stored
  }

  // The object at an upload's key holds exactly its bytes.
  predicate Matches(w: World, id: nat) {
    && id in w.uploads && w.uploads[id].key in w.objects
    && w.objects[w.uploads[id].key] == w.uploads[id].bytes
  }

  // Every upload that a run stores was read back in it, and its object held exactly its bytes then.
  lemma {:induction false} SuccessesWereReadBack(w: World, events: seq<Event>, id: nat)
    requires !IsStored(w, id) && IsStored(Run(w, events), id)
    ensures exists i :: 0 <= i < |events| && events[i] == Read(id, true)
              && Matches(Run(w, events[..i]), id)
              && Run(w, events[..i]).uploads[id].key == Run(w, events).uploads[id].key
              && Run(w, events[..i]).uploads[id].bytes == Run(w, events).uploads[id].bytes
    decreases |events|
  {
    hide Step;
    if events != [] {
      var v, rest := Step(w, events[0]), events[1..];
      StepStores(w, events[0], id);
      if IsStored(v, id) {
        assert events[..0] == [];
        StoredCarries(w, events, id);
      } else {
        SuccessesWereReadBack(v, rest, id);
        var i :| 0 <= i < |rest| && rest[i] == Read(id, true) && Matches(Run(v, rest[..i]), id)
          && id in Run(v, rest).uploads
          && Run(v, rest[..i]).uploads[id].key == Run(v, rest).uploads[id].key
          && Run(v, rest[..i]).uploads[id].bytes == Run(v, rest).uploads[id].bytes;
        assert events[..i + 1][0] == events[0] && events[..i + 1][1..] == rest[..i];
        assert events[i + 1] == rest[i];
      }
    }
  }

  lemma {:induction false} StoredCarries(w: World, events: seq<Event>, id: nat)
    requires id in w.uploads
    ensures id in Run(w, events).uploads
    ensures var u := Run(w, events).uploads[id]; u.key == w.uploads[id].key && u.bytes == w.uploads[id].bytes
    decreases |events|
  {
    hide Step;
    if events != [] {
      StepStores(w, events[0], id);
      StoredCarries(Step(w, events[0]), events[1..], id);
    }
  }

  // Over every run of uploads without a delete at the key, bytes once stored there stay, and all uploads that
  // succeed there carried the same bytes, the ones it holds.
  lemma {:induction false} WriteOnce(w: World, events: seq<Event>, key: string)
    requires Holds(w, key) && Deleted(key) !in events
    ensures key in w.objects ==> key in Run(w, events).objects && Run(w, events).objects[key] == w.objects[key]
    ensures Holds(Run(w, events), key)
    ensures forall a <- Run(w, events).uploads, b <- Run(w, events).uploads ::
              var x, y := Run(w, events).uploads[a], Run(w, events).uploads[b];
              x.key == y.key == key && x.stage == y.stage == Stored ==> x.bytes == y.bytes
    decreases |events|
  {
    hide Step;
    if events != [] {
      assert events[0] in events && forall e <- events[1..] :: e in events;
      StepKeepsBytes(w, events[0], key);
      WriteOnce(Step(w, events[0]), events[1..], key);
    }
  }

  // Nothing was stored, or being stored, at the start: then every success is a success of this run.
  lemma SuccessesAgree(events: seq<Event>, key: string, a: nat, b: nat)
    requires Deleted(key) !in events
    requires var w := Run(World(map[], map[]), events);
             && a in w.uploads && b in w.uploads
             && w.uploads[a].key == w.uploads[b].key == key && w.uploads[a].stage == w.uploads[b].stage == Stored
    ensures var w := Run(World(map[], map[]), events);
            w.uploads[a].bytes == w.uploads[b].bytes && key in w.objects && w.objects[key] == w.uploads[a].bytes
  {
    WriteOnce(World(map[], map[]), events, key);
  }

  // One attempt to save, by what becomes of it. An object is created only where there is none.
  lemma SavingOutcomes(w: World, id: nat, fate: SaveFate)
    requires id in w.uploads && w.uploads[id].stage == Saving
    ensures var u, after := w.uploads[id], Step(w, Saved(id, fate));
            && after.objects == (if fate == Undelivered || u.key in w.objects then w.objects
                                 else w.objects[u.key := u.bytes])
            && after.uploads == w.uploads[id := Upload(u.key, u.bytes,
                 match fate
                 case Undelivered => Failed(ProviderFailure)
                 case Heard => if u.key in w.objects then Comparing else Verifying
                 case LostForGood => Failed(ProviderFailure)
                 case LostAndRetried => Saving)]
  {
    var u := w.uploads[id];
    assert w.uploads == w.uploads[id := u];
  }

  // What reading the object back comes to, by what was read.
  lemma ReadingOutcomes(w: World, id: nat, answered: bool)
    requires id in w.uploads && w.uploads[id].stage in {Comparing, Verifying}
    ensures var u, after := w.uploads[id], Step(w, Read(id, answered));
            && after.objects == w.objects
            && after.uploads == w.uploads[id := Upload(u.key, u.bytes,
                 if answered && u.key in w.objects then
                   (if w.objects[u.key] == u.bytes then Stored else Failed(IntegrityFailure))
                 else if u.stage == Comparing then Failed(ProviderFailure) else Failed(IntegrityFailure))]
  {
  }

  // Where an upload is left after an attempt that is answered, and after one whose answer is lost and which the storage
  // client then repeats: stored when its key was free or held its bytes already, and refused otherwise. Either way
  // nothing that was there is replaced.
  lemma UploadOutcomes(w: World, id: nat)
    requires id in w.uploads && w.uploads[id].stage == Saving
    ensures var u := w.uploads[id];
            var stage := if u.key in w.objects && w.objects[u.key] != u.bytes then Failed(IntegrityFailure) else Stored;
            var objects := if u.key in w.objects then w.objects else w.objects[u.key := u.bytes];
            && Run(w, [Saved(id, Heard)] + ([Read(id, true)] + []))
               == World(objects, w.uploads[id := Upload(u.key, u.bytes, stage)])
            && Run(w, [Saved(id, LostAndRetried)] + ([Saved(id, Heard)] + ([Read(id, true)] + [])))
               == World(objects, w.uploads[id := Upload(u.key, u.bytes, stage)])
  {
    hide Step;
    var once, end := [Saved(id, Heard)] + ([Read(id, true)] + []), [Read(id, true)] + [];
    Answered(w, id);
    SavingOutcomes(w, id, LostAndRetried);
    var w1 := Step(w, Saved(id, LostAndRetried));
    OneStep(w, Saved(id, LostAndRetried), once);
    Answered(w1, id);
  }

  lemma Answered(w: World, id: nat)
    requires id in w.uploads && w.uploads[id].stage == Saving
    ensures var u := w.uploads[id];
            var stage := if u.key in w.objects && w.objects[u.key] != u.bytes then Failed(IntegrityFailure) else Stored;
            var objects := if u.key in w.objects then w.objects else w.objects[u.key := u.bytes];
            Run(w, [Saved(id, Heard)] + ([Read(id, true)] + []))
            == World(objects, w.uploads[id := Upload(u.key, u.bytes, stage)])
  {
    hide Step;
    SavingOutcomes(w, id, Heard);
    var w1 := Step(w, Saved(id, Heard));
    ReadingOutcomes(w1, id, true);
    OneStep(w, Saved(id, Heard), [Read(id, true)] + []);
    OneStep(w1, Read(id, true), []);
  }

  lemma OneStep(w: World, e: Event, rest: seq<Event>)
    ensures Run(w, [e] + rest) == Run(Step(w, e), rest)
  {
    hide Step;
    assert ([e] + rest)[1..] == rest;
  }

  // Without that proviso it fails: a delete between two successes lets the key hold other bytes.
  lemma DeleteLetsBytesChange()
    ensures var w := Run(World(map[], map[]), [Begun(0, "k", [0])]
            + ([Saved(0, Heard)] + ([Read(0, true)] + ([Deleted("k")]
                     + ([Begun(1, "k", [1])] + ([Saved(1, Heard)] + ([Read(1, true)] + [])))))));
            && 0 in w.uploads && 1 in w.uploads && w.uploads[0].stage == w.uploads[1].stage == Stored
            && w.uploads[0].bytes != w.uploads[1].bytes
  {
    var first, second: Bytes := [0], [1];
    assert first[0] != second[0];
    var w0 := World(map[], map[]);
    var w3 := World(map["k" := first], map[0 := Upload("k", first, Stored)]);
    assert Step(Step(Step(w0, Begun(0, "k", first)), Saved(0, Heard)), Read(0, true)) == w3;
    var w4 := World(map[], w3.uploads);
    assert Step(w3, Deleted("k")) == w4;
    var w5 := Step(w4, Begun(1, "k", second));
    var w6 := Step(w5, Saved(1, Heard));
    var w7 := Step(w6, Read(1, true));
    assert w7.uploads[0].stage == w7.uploads[1].stage == Stored && w7.uploads[0].bytes == first
      && w7.uploads[1].bytes == second;
    hide Step;
    var end: seq<Event> := [];
    var e6 := [Read(1, true)] + end;
    var e5 := [Saved(1, Heard)] + e6;
    var e4 := [Begun(1, "k", second)] + e5;
    var e3 := [Deleted("k")] + e4;
    var e2 := [Read(0, true)] + e3;
    var e1 := [Saved(0, Heard)] + e2;
    OneStep(w0, Begun(0, "k", first), e1);
    OneStep(Step(w0, Begun(0, "k", first)), Saved(0, Heard), e2);
    OneStep(Step(Step(w0, Begun(0, "k", first)), Saved(0, Heard)), Read(0, true), e3);
    OneStep(w3, Deleted("k"), e4);
    OneStep(w4, Begun(1, "k", second), e5);
    OneStep(w5, Saved(1, Heard), e6);
    OneStep(w6, Read(1, true), end);
  }
}
