/** When a token is used and when it is rotated, and what a rotation leaves as it was. */
module RotationLife {
  import opened Options
  import opened Rotation
  import opened RotationRuns

  // ---------------------------------------------------------------- one consumer

  /** A consumer that arrives reads at once exactly when no refresh of its credential is under way. */
  lemma Arrives(s: State, c: Cid, key: Key)
    requires Base(s) && Possible(s, DoArrive(c, key))
    ensures var r := Step(s, DoArrive(c, key));
      && c in r.consumers && r.consumers[c].key == key
      && (Possible(r, DoRead(c)) <==> forall f :: f in s.flights && s.flights[f].key == key ==> s.flights[f].stage.Ended?)
      && (!Possible(r, DoRead(c)) ==>
            r.consumers[c].phase.Behind? && InFlight(s, r.consumers[c].phase.f) && s.flights[r.consumers[c].phase.f].key == key)
  {
    assert Entry(s, key);
    forall f | f in s.flights && s.flights[f].key == key && !s.flights[f].stage.Ended? ensures key in s.refreshing {
      assert Entered(s, f);
    }
    if key in s.refreshing {
      assert InFlight(s, s.refreshing[key]);
    }
  }

  /** A credential that is not stored gives no token. */
  lemma Reads(s: State, c: Cid)
    requires Possible(s, DoRead(c))
    ensures var r := Step(s, DoRead(c)); var key := s.consumers[c].key;
      && r == s.(consumers := r.consumers) && r.consumers.Keys == s.consumers.Keys
      && r.consumers[c] == Consumer(key, if key in s.stored then Holding(s.stored[key]) else Got(None))
      && forall d :: d in s.consumers && d != c ==> r.consumers[d] == s.consumers[d]
  {
  }

  /** What a consumer does with the bundle it read. With over a minute left, or over a week for a bundle that
      only its own token can renew, or where nothing can renew it, the token is used; else it is rotated, by
      whoever rotates it already. */
  lemma Decides(s: State, c: Cid, f: Fid, endpoint: bool, now: int)
    requires Possible(s, DoDecide(c, f, endpoint, now))
    ensures var r := Step(s, DoDecide(c, f, endpoint, now)); var key := s.consumers[c].key; var b := s.consumers[c].phase.b;
      var usable := match b.expires
        case None => true
        case Some(end) => if b.refresh.Some? then now + 60000 <= end else !endpoint || now + 604800000 <= end;
      && r.stored == s.stored && c in r.consumers && r.consumers[c].key == key
      && (usable ==> r.flights == s.flights && r.refreshing == s.refreshing && r.consumers[c].phase == Got(Some(b.access)))
      && (!usable && key in s.refreshing ==>
            r.flights == s.flights && r.refreshing == s.refreshing && r.consumers[c].phase == Sharing(s.refreshing[key]))
      && (!usable && key !in s.refreshing ==>
            r.flights == s.flights[f := Flight(key, b, Asking)] && r.refreshing == s.refreshing[key := f] && r.consumers[c].phase == Sharing(f))
  {
  }

  // ---------------------------------------------------------------- one rotation

  /** The stored bundle after a rotation has the new access token, the new refresh token or else the one it set
      out with, and the rest. A consumer that reads it uses it until a minute before its time, or for good
      when it was given none. */
  lemma Lasts(s: State, f: Fid, tok: Response, now: int, q: State, c: Cid, g: Fid, endpoint: bool, later: int)
    requires Base(s) && Possible(s, DoAnswer(f, Some(tok), now)) && Possible(Step(s, DoAnswer(f, Some(tok), now)), DoWrite(f))
    requires Possible(q, DoDecide(c, g, endpoint, later))
    requires var r := Step(Step(s, DoAnswer(f, Some(tok), now)), DoWrite(f));
      s.flights[f].key in r.stored && q.consumers[c].phase == Holding(r.stored[s.flights[f].key])
    ensures var b := q.consumers[c].phase.b; var from := s.flights[f].from;
      && b.access == tok.access && b.rest == from.rest
      && b.refresh == (if tok.refresh.Some? then tok.refresh else from.refresh)
    ensures q.consumers[c].phase.b.refresh.Some? ==>
      (Step(q, DoDecide(c, g, endpoint, later)).consumers[c].phase == Got(Some(tok.access))
       <==> (tok.expiresIn.Some? ==> later <= now + 1000 * tok.expiresIn.value - 60000))
  {
  }

  /** A refresh that fails, or whose result cannot be written, leaves what is stored; whoever shares it fails. */
  lemma Fails(s: State, a: Action)
    requires Base(s) && Possible(s, a) && ((a.DoAnswer? && a.tok == None) || a.DoWriteFails?)
    ensures var r := Step(s, a); var key := s.flights[a.f].key;
      && r.stored == s.stored && r.refreshing == s.refreshing - {key} && r.consumers == s.consumers
      && forall c :: c in r.consumers && r.consumers[c].phase == Sharing(a.f) ==>
           Possible(r, DoTake(c)) && Step(r, DoTake(c)).consumers[c].phase == Threw
  {
  }

  /** One that is written and lands frees its credential, and whoever shares it gets the new token. */
  lemma Lands(s: State, f: Fid)
    requires Base(s) && Possible(s, DoWrite(f)) && Possible(Step(s, DoWrite(f)), DoLand(f))
    ensures var r := Step(Step(s, DoWrite(f)), DoLand(f)); var key := s.flights[f].key;
      && key in r.stored && r.stored == s.stored[key := r.stored[key]] && r.refreshing == s.refreshing - {key}
      && forall c :: c in r.consumers && r.consumers[c].phase == Sharing(f) ==>
           Possible(r, DoTake(c)) && Step(r, DoTake(c)).consumers[c].phase == Got(Some(r.stored[key].access))
  {
  }

  // ---------------------------------------------------------------- what rotations carry over

  /** Whatever is stored, in somebody's hand or on its way has the rest that its credential began with. */
  ghost predicate Carried(s: State, rest: map<Key, string>) {
    && s.stored.Keys == rest.Keys
    && (forall key :: key in s.stored ==> s.stored[key].rest == rest[key])
    && (forall f {:trigger CarriedBy(s, f, rest)} :: CarriedBy(s, f, rest))
    && (forall c {:trigger CarriedIn(s, c, rest)} :: CarriedIn(s, c, rest))
  }

  ghost predicate CarriedBy(s: State, f: Fid, rest: map<Key, string>) {
    InFlight(s, f) ==>
      var fl := s.flights[f];
      && fl.key in rest && fl.from.rest == rest[fl.key]
      && (fl.stage.Writing? ==> fl.stage.next.rest == rest[fl.key])
  }

  ghost predicate CarriedIn(s: State, c: Cid, rest: map<Key, string>) {
    c in s.consumers && s.consumers[c].phase.Holding? ==>
      s.consumers[c].key in rest && s.consumers[c].phase.b.rest == rest[s.consumers[c].key]
  }

  lemma StepCarried(s: State, a: Action, rest: map<Key, string>)
    requires Carried(s, rest) && Possible(s, a)
    ensures Carried(Step(s, a), rest)
  {
    var r := Step(s, a);
    if a.DoDecide? {
      assert CarriedIn(s, a.c, rest);
    } else if a.DoAnswer? || a.DoWrite? {
      assert CarriedBy(s, a.f, rest);
    }
    forall f ensures CarriedBy(r, f, rest) { assert CarriedBy(s, f, rest); }
    forall c ensures CarriedIn(r, c, rest) { assert CarriedIn(s, c, rest); }
  }

  lemma {:induction false} RunCarried(s: State, run: seq<Action>, rest: map<Key, string>)
    requires Carried(s, rest) && Legal(s, run)
    ensures Carried(Exec(s, run), rest)
    decreases |run|
  {
    if run != [] {
      StepCarried(s, run[0], rest);
      RunCarried(Step(s, run[0]), run[1..], rest);
    }
  }

  /** Over any run from a start, no credential comes or goes, and of each the client, its secret, and the
      declared fields stay what they were. */
  lemma RestKept(s: State, run: seq<Action>, key: Key)
    requires Start(s) && Legal(s, run)
    ensures Exec(s, run).stored.Keys == s.stored.Keys
    ensures key in s.stored ==> Exec(s, run).stored[key].rest == s.stored[key].rest
  {
    var rest := map k | k in s.stored :: s.stored[k].rest;
    assert Carried(s, rest);
    RunCarried(s, run, rest);
  }
}
