/** The calls, the catalogue's own operations and the restart keep the invariant too. */
module PipelineCalls {
  import opened Wrappers
  import opened Library
  import opened Models
  import opened Records
  import opened Pipeline
  import opened PipelineInvariant

  /** Attempt `m` and everything of its own are as they were. */
  ghost predicate SameAttempt(s: Node, s': Node, m: nat) {
    && m in s.tasks && m in s'.tasks
    && PlaceOf(s', m) == PlaceOf(s, m) && HomeOf(s', s'.tasks[m]) == HomeOf(s, s.tasks[m])
  }

  ghost predicate SameModels(s: Node, s': Node) {
    && s'.shelf == s.shelf && s'.entries == s.entries && s'.saving == s.saving && s'.removing == s.removing
    && s'.placements == s.placements && s'.inserted == s.inserted
  }

  lemma FrameCall(lib: Remote, s: Node, s': Node)
    requires Inv(lib, s) && SameModels(s, s')
    requires IdsOk(s') && OneWriter(s')
    requires forall m :: m in s'.tasks ==> SameAttempt(s, s', m) || TaskAt(lib, s', m)
    requires forall id :: id in s'.book.inner ==> RecordAt(lib, s', id)
    ensures Inv(lib, s')
  {
    forall m | m in s'.tasks ensures TaskAt(lib, s', m) {
      if SameAttempt(s, s', m) { assert TaskAt(lib, s, m); }
    }
    forall u | u in s'.shelf ensures DirAt(lib, s', u) { assert DirAt(lib, s, u); }
    forall u | u in s'.entries ensures EntryAt(s', u) { assert EntryAt(s, u); }
  }

  // ------------------------------------------------------------------ start

  /** The sweep drops no record that an unsettled attempt still works for. */
  lemma SweepSparesAttempts(lib: Remote, s: Node, m: nat, now: int)
    requires Inv(lib, s) && m in s.tasks
    ensures Get(Swept(s.book.inner, now), s.tasks[m].id) == Get(s.book.inner, s.tasks[m].id)
  {}

  lemma StartedTasks(lib: Remote, s: Node, id: Id, plan: HubRepo, now: int)
    requires Inv(lib, s) && id !in s.minted && Truthful(lib, plan)
    ensures forall m :: m in s.tasks ==> SameAttempt(s, Started(s, id, plan, now), m)
    ensures TaskAt(lib, Started(s, id, plan, now), s.book.next)
  {
    var s' := Started(s, id, plan, now);
    forall m | m in s.tasks ensures SameAttempt(s, s', m) {
      SweepSparesAttempts(lib, s, m, now);
      assert s'.tasks[m] == s.tasks[m];
    }
    assert id !in s.incoming;
  }

  lemma StartedRecords(lib: Remote, s: Node, id: Id, plan: HubRepo, now: int)
    requires Inv(lib, s) && id !in s.minted && Truthful(lib, plan)
    ensures forall x :: x in Started(s, id, plan, now).book.inner ==> RecordAt(lib, Started(s, id, plan, now), x)
  {}

  lemma StartedIds(s: Node, id: Id, plan: HubRepo, now: int)
    requires IdsOk(s) && OneWriter(s) && id !in s.minted
    ensures IdsOk(Started(s, id, plan, now)) && OneWriter(Started(s, id, plan, now))
  {}

  lemma KeepStart(lib: Remote, s: Node, id: Id, plan: HubRepo, now: int)
    requires Inv(lib, s) && id !in s.minted && Truthful(lib, plan)
    ensures Inv(lib, Started(s, id, plan, now))
  {
    StartedTasks(lib, s, id, plan, now);
    StartedRecords(lib, s, id, plan, now);
    StartedIds(s, id, plan, now);
    FrameCall(lib, s, Started(s, id, plan, now));
  }

  // ------------------------------------------------- cancel, resume, forget

  /** Cancelling one download's token changes no other record's. */
  lemma CancelledRecord(lib: Remote, s: Node, s': Node, id: Id, x: Id)
    requires IdsOk(s) && id in s.book.inner && x in s.book.inner && RecordAt(lib, s, x)
    requires s'.book == CallOff(s.book, id) && s'.tasks == s.tasks && s'.incoming == s.incoming
    requires s'.inserted == s.inserted
    requires s'.calledOff == s.calledOff
          || (CanCancel(s.book, id) && s'.calledOff == s.calledOff + {s.book.inner[id].cancel})
    ensures RecordAt(lib, s', x)
  {}

  lemma TokenCancelled(lib: Remote, s: Node, s': Node, id: Id)
    requires Inv(lib, s) && id in s.book.inner
    requires s'.book == CallOff(s.book, id)
    requires s'.tasks == s.tasks && s'.incoming == s.incoming && s'.minted == s.minted && SameModels(s, s')
    requires s'.calledOff == s.calledOff
          || (CanCancel(s.book, id) && s'.calledOff == s.calledOff + {s.book.inner[id].cancel})
    ensures Inv(lib, s')
  {
    forall x | x in s'.book.inner ensures RecordAt(lib, s', x) {
      assert RecordAt(lib, s, x);
      CancelledRecord(lib, s, s', id, x);
    }
    forall m | m in s'.tasks ensures SameAttempt(s, s', m) {}
    FrameCall(lib, s, s');
  }

  lemma KeepCancel(lib: Remote, s: Node, id: Id)
    requires Inv(lib, s)
    ensures Inv(lib, CancelCalled(s, id))
  {
    if CanCancel(s.book, id) { TokenCancelled(lib, s, CancelCalled(s, id), id); }
  }

  lemma KeepForgetAsk(lib: Remote, s: Node, id: Id)
    requires Inv(lib, s)
    ensures Inv(lib, ForgetAsked(s, id))
  {
    if id in s.book.inner { TokenCancelled(lib, s, ForgetAsked(s, id), id); }
  }

  /** Only a download without an attempt is resumed. */
  lemma ResumableHasNoAttempt(lib: Remote, s: Node, id: Id, m: nat)
    requires Inv(lib, s) && CanResume(s.book, id) && m in s.tasks
    ensures s.tasks[m].id != id
  {}

  lemma KeepResume(lib: Remote, s: Node, id: Id, now: int)
    requires Inv(lib, s)
    ensures Inv(lib, ResumeCalled(s, id, now))
  {
    if CanResume(s.book, id) {
      var s' := ResumeCalled(s, id, now);
      ResumedRecords(lib, s, id, now);
      ResumedTasks(lib, s, id, now);
      assert RecordAt(lib, s, id);
      ResumedAttempt(lib, s, id, now);
      ResumedIds(s, id, now);
      ResumedWriter(lib, s, id, now);
      FrameCall(lib, s, s');
    }
  }

  lemma ResumedTasks(lib: Remote, s: Node, id: Id, now: int)
    requires Inv(lib, s) && CanResume(s.book, id)
    ensures forall m :: m in s.tasks ==> SameAttempt(s, ResumeCalled(s, id, now), m)
  {}

  lemma ResumedAttempt(lib: Remote, s: Node, id: Id, now: int)
    requires CanResume(s.book, id) && RecordAt(lib, s, id)
    ensures TaskAt(lib, ResumeCalled(s, id, now), s.book.next)
  {}

  lemma ResumedIds(s: Node, id: Id, now: int)
    requires IdsOk(s) && CanResume(s.book, id)
    ensures IdsOk(ResumeCalled(s, id, now))
  {}

  lemma ResumedWriter(lib: Remote, s: Node, id: Id, now: int)
    requires Inv(lib, s) && CanResume(s.book, id)
    ensures OneWriter(ResumeCalled(s, id, now))
  {
    forall m | m in s.tasks ensures s.tasks[m].id != id {
      ResumableHasNoAttempt(lib, s, id, m);
    }
  }

  lemma ResumedRecords(lib: Remote, s: Node, id: Id, now: int)
    requires Inv(lib, s) && CanResume(s.book, id)
    ensures forall x :: x in ResumeCalled(s, id, now).book.inner ==> RecordAt(lib, ResumeCalled(s, id, now), x)
  {}

  lemma DroppedTask(lib: Remote, s: Node, s': Node, id: Id, m: nat)
    requires m in s.tasks && TaskAt(lib, s, m)
    requires s' == s.(book := Dropped(s.book, id), dropped := s'.dropped)
    ensures TaskAt(lib, s', m)
  {
    assert PlaceOf(s', m) == if s.tasks[m].id == id then PlaceOf(s, m).(rec := None) else PlaceOf(s, m);
    assert HomeOf(s', s'.tasks[m]) == HomeOf(s, s.tasks[m]);
  }

  lemma KeepForgetDrop(lib: Remote, s: Node, id: Id)
    requires Inv(lib, s)
    ensures Inv(lib, s.(book := Dropped(s.book, id), dropped := s.dropped + {id}))
  {
    var s' := s.(book := Dropped(s.book, id), dropped := s.dropped + {id});
    forall x | x in s'.book.inner ensures RecordAt(lib, s', x) { assert RecordAt(lib, s, x); }
    forall m | m in s'.tasks ensures TaskAt(lib, s', m) { DroppedTask(lib, s, s', id, m); }
    FrameCall(lib, s, s');
  }

  /** A removed staging directory leaves nothing half-right behind: whatever was checked is gone with it. */
  lemma OrphanOk(lib: Remote, n: nat, p: Place, home: Option<Home>)
    requires TaskOk(lib, n, p, home)
    ensures TaskOk(lib, n, Place(Orphan(p.task, p.task.id), p.rec, None), home)
    ensures UidOf(Orphan(p.task, p.task.id).phase) == UidOf(p.task.phase)
  {}

  lemma WipedPlaces(s: Node, id: Id, m: nat)
    requires m in s.tasks
    ensures
      var s', t := ForgetWiped(s, id), s.tasks[m];
      && m in s'.tasks && HomeOf(s', s'.tasks[m]) == HomeOf(s, t)
      && PlaceOf(s', m) == if t.id == id then Place(Orphan(t, id), PlaceOf(s, m).rec, None) else PlaceOf(s, m)
  {}

  lemma WipedTasks(lib: Remote, s: Node, id: Id)
    requires Inv(lib, s)
    ensures forall m :: m in s.tasks ==> m in ForgetWiped(s, id).tasks && TaskAt(lib, ForgetWiped(s, id), m)
  {
    forall m | m in s.tasks ensures m in ForgetWiped(s, id).tasks && TaskAt(lib, ForgetWiped(s, id), m) {
      assert TaskAt(lib, s, m);
      WipedPlaces(s, id, m);
      if s.tasks[m].id == id { OrphanOk(lib, m, PlaceOf(s, m), HomeOf(s, s.tasks[m])); }
    }
  }

  lemma WipedIds(s: Node, id: Id)
    requires IdsOk(s) && OneWriter(s)
    ensures IdsOk(ForgetWiped(s, id)) && OneWriter(ForgetWiped(s, id))
  {}

  lemma WipedRecords(lib: Remote, s: Node, id: Id)
    requires forall x :: x in s.book.inner ==> RecordAt(lib, s, x)
    ensures forall x :: x in s.book.inner ==> RecordAt(lib, ForgetWiped(s, id), x)
  {}

  lemma KeepForgetWipe(lib: Remote, s: Node, id: Id)
    requires Inv(lib, s)
    ensures Inv(lib, ForgetWiped(s, id))
  {
    WipedTasks(lib, s, id);
    WipedRecords(lib, s, id);
    WipedIds(s, id);
    FrameCall(lib, s, ForgetWiped(s, id));
  }

  // ------------------------------------------- the catalogue's operations

  /** `s'` differs from `s` only in what the catalogue holds about `uid`, which it has listed before. */
  ghost predicate OnlyCatalogue(s: Node, s': Node, uid: Uid) {
    && s'.book == s.book && s'.tasks == s.tasks && s'.incoming == s.incoming && s'.calledOff == s.calledOff
    && s'.minted == s.minted && s'.placements == s.placements && s'.inserted == s.inserted
    && (uid in s.entries || uid in s.removing)
    && AgreeExcept(s.shelf, s'.shelf, Some(uid)) && AgreeExcept(s.entries, s'.entries, Some(uid))
    && s.removing <= s'.removing && s'.removing <= s.removing + {uid}
  }

  /**
   An attempt whose model is already listed has nothing left to do but settle; and no other attempt
   sees that model.
   */
  lemma CatalogueTasks(lib: Remote, s: Node, s': Node, uid: Uid)
    requires OnlyCatalogue(s, s', uid) && forall m :: m in s.tasks ==> TaskAt(lib, s, m)
    ensures forall m :: m in s.tasks ==> TaskAt(lib, s', m)
  {}

  lemma CatalogueRecords(lib: Remote, s: Node, s': Node, uid: Uid)
    requires OnlyCatalogue(s, s', uid) && forall x :: x in s.book.inner ==> RecordAt(lib, s, x)
    ensures forall x :: x in s.book.inner ==> RecordAt(lib, s', x)
  {}

  lemma CatalogueIds(s: Node, s': Node, uid: Uid)
    requires IdsOk(s) && OneWriter(s) && OnlyCatalogue(s, s', uid)
    ensures IdsOk(s') && OneWriter(s')
  {
    forall u | u in s'.shelf || u in s'.entries ensures u in s'.minted {
      assert u == uid || (Get(s.shelf, u) == Get(s'.shelf, u) && Get(s.entries, u) == Get(s'.entries, u));
    }
  }

  /** An update holds the lock for one entry at a time, so any other entry reads the same. */
  lemma CatalogueOthers(lib: Remote, s: Node, s': Node, uid: Uid)
    requires Inv(lib, s) && OnlyCatalogue(s, s', uid)
    requires s.saving.Some? ==> s.saving.value.uid == uid
    requires s'.saving.Some? ==> s'.saving.value.uid == uid
    ensures forall u :: u in s'.shelf && u != uid ==> DirAt(lib, s', u)
    ensures forall u :: u in s'.entries && u != uid ==> EntryAt(s', u)
  {
    forall u | u in s'.shelf && u != uid ensures DirAt(lib, s', u) {
      assert Get(s.shelf, u) == Get(s'.shelf, u);
      assert DirAt(lib, s, u);
    }
    forall u | u in s'.entries && u != uid ensures EntryAt(s', u) {
      assert Get(s.shelf, u) == Get(s'.shelf, u) && Get(s.entries, u) == Get(s'.entries, u);
      assert EntryAt(s, u);
    }
  }

  lemma FrameCatalogue(lib: Remote, s: Node, s': Node, uid: Uid)
    requires Inv(lib, s) && OnlyCatalogue(s, s', uid)
    requires s.saving.Some? ==> s.saving.value.uid == uid
    requires s'.saving.Some? ==> s'.saving.value.uid == uid
    requires uid in s'.shelf ==> DirAt(lib, s', uid)
    requires uid in s'.entries ==> EntryAt(s', uid)
    requires SavingAt(s')
    ensures Inv(lib, s')
  {
    CatalogueTasks(lib, s, s', uid);
    CatalogueRecords(lib, s, s', uid);
    CatalogueIds(s, s', uid);
    CatalogueOthers(lib, s, s', uid);
  }

  lemma KeepUpdateWrite(lib: Remote, s: Node, uid: Uid, e: ModelEntry)
    requires Inv(lib, s) && s.saving.None? && uid in s.entries && uid in s.shelf && SameModel(s.entries[uid], e)
    ensures Inv(lib, UpdateWritten(s, uid, e))
  {
    assert DirAt(lib, s, uid) && EntryAt(s, uid);
    FrameCatalogue(lib, s, UpdateWritten(s, uid, e), uid);
  }

  lemma KeepUpdateCommit(lib: Remote, s: Node)
    requires Inv(lib, s) && s.saving.Some? && !s.saving.value.committed
    requires s.saving.value.uid in s.shelf && s.shelf[s.saving.value.uid].temp.Some?
    ensures Inv(lib, UpdateCommitted(s))
  {
    var uid := s.saving.value.uid;
    assert uid in s.entries;
    assert DirAt(lib, s, uid) && EntryAt(s, uid);
    FrameCatalogue(lib, s, UpdateCommitted(s), uid);
  }

  lemma KeepUpdateRemember(lib: Remote, s: Node)
    requires Inv(lib, s) && s.saving.Some? && s.saving.value.committed
    ensures Inv(lib, UpdateRemembered(s))
  {
    var uid := s.saving.value.uid;
    assert uid in s.entries;
    assert DirAt(lib, s, uid) && EntryAt(s, uid);
    FrameCatalogue(lib, s, UpdateRemembered(s), uid);
  }

  lemma KeepUpdateAbandon(lib: Remote, s: Node)
    requires Inv(lib, s) && s.saving.Some? && !s.saving.value.committed
    ensures Inv(lib, s.(saving := None))
  {
    var uid := s.saving.value.uid;
    assert uid in s.entries;
    assert DirAt(lib, s, uid) && EntryAt(s, uid);
    FrameCatalogue(lib, s, s.(saving := None), uid);
  }

  lemma KeepRemoveEntry(lib: Remote, s: Node, uid: Uid)
    requires Inv(lib, s) && s.saving.None? && uid in s.entries
    ensures Inv(lib, s.(entries := s.entries - {uid}, removing := s.removing + {uid}))
  {
    assert EntryAt(s, uid);
    assert DirAt(lib, s, uid);
    FrameCatalogue(lib, s, s.(entries := s.entries - {uid}, removing := s.removing + {uid}), uid);
  }

  /** What is being removed is no longer listed, and no update is about it. */
  lemma RemovingIsUnlisted(lib: Remote, s: Node, uid: Uid)
    requires Inv(lib, s) && uid in s.removing
    ensures uid !in s.entries && (s.saving.Some? ==> s.saving.value.uid != uid)
  {}

  lemma DirectoryGone(lib: Remote, s: Node, s': Node, uid: Uid)
    requires s' == s.(shelf := DeleteTree(s.shelf, uid)) && uid !in s.entries
    requires forall u :: u in s.shelf ==> DirAt(lib, s, u)
    requires forall u :: u in s.entries ==> EntryAt(s, u)
    ensures forall u :: u in s'.shelf ==> DirAt(lib, s', u)
    ensures forall u :: u in s'.entries ==> EntryAt(s', u)
  {}

  lemma SavingElsewhere(s: Node, s': Node, uid: Uid)
    requires SavingAt(s) && s'.saving == s.saving && OnlyCatalogue(s, s', uid)
    requires s.saving.Some? ==> s.saving.value.uid != uid
    ensures SavingAt(s')
  {}

  lemma RemovalTouches(s: Node, uid: Uid)
    requires uid in s.removing
    ensures OnlyCatalogue(s, s.(shelf := DeleteTree(s.shelf, uid)), uid)
  {}

  lemma KeepRemoveDirectory(lib: Remote, s: Node, uid: Uid)
    requires Inv(lib, s) && uid in s.removing
    ensures Inv(lib, s.(shelf := DeleteTree(s.shelf, uid)))
  {
    var s' := s.(shelf := DeleteTree(s.shelf, uid));
    RemovingIsUnlisted(lib, s, uid);
    RemovalTouches(s, uid);
    SavingElsewhere(s, s', uid);
    CatalogueTasks(lib, s, s', uid);
    CatalogueRecords(lib, s, s', uid);
    CatalogueIds(s, s', uid);
    DirectoryGone(lib, s, s', uid);
  }

  // ---------------------------------------------------------------- restart

  lemma KeepRestart(lib: Remote, s: Node, survivors: set<Id>)
    requires Inv(lib, s)
    ensures Inv(lib, Reboot(s, survivors))
  {
    var s' := Reboot(s, survivors);
    forall u | u in s'.shelf ensures DirAt(lib, s', u) { assert DirAt(lib, s, u); }
    forall u | u in s'.entries ensures EntryAt(s', u) {
      assert u in s.shelf;
      assert DirAt(lib, s, u);
    }
  }
}
