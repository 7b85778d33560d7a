/** The temporary audio area as one caller sees it: creating, releasing and sweeping files. */
module TempAudioAreas {
  import opened Common
  import opened TempAudioProtocol

  /** What `_is_reclaimable` decides for one entry when nothing else moves. */
  predicate Reclaimable(
    audio: map<Token, Audio>, meta: map<Token, Meta>, t: Token, now: int, boot: nat, running: map<nat, nat>, ttl: nat)
  {
    && t in audio && audio[t].regular
    && if t in meta && meta[t].Complete?
       then TakenAtOnce(meta[t].claim, now, boot) || !OwnerAlive(meta[t].claim, running)
       else now - audio[t].mtime > ttl || t !in meta
  }

  /** One look of the interleaved protocol, from visiting an entry to its decision, taken without interruption. */
  ghost function SoloLook(s: State, process: ProcessId, pc: Pc, fuel: nat): Pc
    decreases fuel
  {
    if fuel == 0 || pc.Removing? || !(pc.Visiting? || pc.Inspecting? || pc.CheckingMissing? || pc.CheckingOwner?)
      then pc
    else
      var e := ActEffect(s, process, pc, true, []);
      if e.pc.Some? && !e.pc.value.Visiting? then SoloLook(s, process, e.pc.value, fuel - 1)
      else if e.pc.Some? then e.pc.value else pc
  }

  /** Uninterrupted, the protocol's steps take exactly the decision of `_is_reclaimable`. */
  lemma SoloLookDecides(s: State, process: ProcessId, w: Sweep)
    requires w.pending != [] && !w.expireAll
    ensures var t, rest := w.pending[0], w.(pending := w.pending[1..]);
            var end := SoloLook(s, process, Visiting(w), 4);
            if Reclaimable(s.audio, s.meta, t, w.now, w.boot, s.running, s.ttl)
            then end.Removing? && end.token == t && end.sweep == rest
            else end == Visiting(rest)
  {
    var t, rest := w.pending[0], w.(pending := w.pending[1..]);
    var first := ActEffect(s, process, Visiting(w), true, []).pc.value;
    if first.Inspecting? {
      assert SoloLook(s, process, Visiting(w), 4) == SoloLook(s, process, first, 3);
      var second := ActEffect(s, process, first, true, []).pc.value;
      if !second.Removing? {
        assert SoloLook(s, process, first, 3) == SoloLook(s, process, second, 2);
      }
    }
  }

  /** The listed entries that are in `from`, in visiting order. */
  function Chosen(listing: seq<Token>, from: set<Token>): seq<Token> {
    if listing == [] then []
    else
      Chosen(listing[..|listing| - 1], from) + if listing[|listing| - 1] in from then [listing[|listing| - 1]] else []
  }

  /** The listed entries that are not in `doomed`, in visiting order. */
  function Without(listing: seq<Token>, doomed: set<Token>): seq<Token> {
    if listing == [] then []
    else
      Without(listing[..|listing| - 1], doomed) + if listing[|listing| - 1] in doomed then []
        else [listing[|listing| - 1]]
  }

  lemma {:induction false} ChosenMembers(listing: seq<Token>, from: set<Token>, t: Token)
    ensures t in Chosen(listing, from) <==> t in listing && t in from
  {
    if listing != [] {
      ChosenMembers(listing[..|listing| - 1], from, t);
    }
  }

  /** The directory and the counters after visiting `listing`. */
  datatype Swept = Swept(audio: map<Token, Audio>, meta: map<Token, Meta>, removed: nat, retained: nat,
    failed: seq<Token>)

  /** The deletions the system refuses: of files, of their claims, and of claims left without a file. */
  datatype Refusals = Refusals(files: set<Token>, claims: set<Token>, orphans: set<Token>)

  function SweptBy(
    audio: map<Token, Audio>, meta: map<Token, Meta>, listing: seq<Token>, doomed: set<Token>, refused: Refusals): Swept
  {
    if listing == [] then Swept(audio, meta, 0, 0, [])
    else
      var t := listing[|listing| - 1];
      var before := SweptBy(audio, meta, listing[..|listing| - 1], doomed, refused);
      if t !in doomed then before.(retained := before.retained + 1)
      else if t in refused.files then before.(failed := before.failed + [t])
      else if t in refused.claims then before.(audio := before.audio - {t}, failed := before.failed + [t])
      else before.(audio := before.audio - {t}, meta := before.meta - {t}, removed := before.removed + 1)
  }

  /**
   Visiting entries one by one removes exactly the doomed ones whose deletion is not refused, and
   counts each once.
   */
  lemma {:induction false} SweptShape(
    audio: map<Token, Audio>, meta: map<Token, Meta>, listing: seq<Token>, doomed: set<Token>, refused: Refusals)
    ensures var r := SweptBy(audio, meta, listing, doomed, refused);
            var taken := (set t | t in listing) * (doomed - refused.files);
            && r.audio == audio - taken && r.meta == meta - (taken - refused.claims)
            && r.failed == Chosen(listing, doomed * (refused.files + refused.claims))
            && r.retained == |Without(listing, doomed)|
            && r.removed + r.retained + |r.failed| == |listing|
  {
    if listing != [] {
      var front, t := listing[..|listing| - 1], listing[|listing| - 1];
      SweptShape(audio, meta, front, doomed, refused);
      assert listing == front + [t];
    }
  }

  /**
   The claims after both passes: those of the files that are left, and those that neither pass could
   delete, the first of a file it took and the second of any claim without a file.
   */
  function ClaimsLeft(
    meta: map<Token, Meta>, audio: map<Token, Audio>, doomed: set<Token>, refused: Refusals): map<Token, Meta>
  {
    map t | t in meta && (t in audio || (t in refused.orphans && (t in doomed ==> t in refused.claims))) :: meta[t]
  }

  datatype Fate = Removed | Retained | Stuck

  /** How writing a claim file ends. */
  datatype ClaimWrite = Finished | NotMade | CutShort

  datatype Creation = Created | LimitReached | ClaimFailed

  /** A path as `release` sorts it: an audio file directly in the area, or anything else. */
  datatype AreaPath = Inside(token: Token) | Elsewhere

  function TotalBytes(listing: seq<Token>, audio: map<Token, Audio>, sizeOf: Token -> nat): nat {
    if listing == [] then 0
    else
      var t := listing[|listing| - 1];
      TotalBytes(listing[..|listing| - 1], audio, sizeOf) + if t in audio && audio[t].regular then sizeOf(t) else 0
  }

  class TemporaryAudioArea {
    const ttl: nat
    var audio: map<Token, Audio>
    var meta: map<Token, Meta>

    constructor (ttl: nat, audio: map<Token, Audio>, meta: map<Token, Meta>)
      ensures this.ttl == ttl && this.audio == audio && this.meta == meta
    {
      this.ttl, this.audio, this.meta := ttl, audio, meta;
    }

    /**
     Sweeps, checks the bound on what is left, creates one exclusive file and claims it for the
     calling process. Reaching the bound creates nothing; a claim that cannot be written leaves the
     file without one, or with an unfinished one.
     */
    method CreateFile(
      token: Token, process: ProcessId, ticksReadable: bool, listing: seq<Token>, now: int, boot: nat,
      running: map<nat, nat>,
                      refused: Refusals, sizeOf: Token -> nat, limit: nat, claim: ClaimWrite) returns (r: Creation)
      requires token !in audio && token !in meta
      requires NoDuplicates(listing) && forall t :: t in listing <==> t in audio
      modifies this
      ensures var doomed := old(Doomed(now, boot, running, false));
              var kept := old(audio) - (doomed - refused.files);
              var claims := ClaimsLeft(old(meta), kept, doomed, refused);
              var full := TotalBytes(listing, kept, sizeOf) >= limit;
              && r == (if full then LimitReached else if claim.Finished? then Created else ClaimFailed)
              && audio == (if full then kept else kept[token := Audio(true, now)])
              && meta == (if full || claim.NotMade? then claims
                          else claims[token := if claim.CutShort? then Incomplete
                                               else Complete(ClaimBy(process, ticksReadable, now, ttl))])
    {
      var _, _, _ := Sweep(listing, now, boot, running, false, refused);
      var total := MeasureTotal(listing, sizeOf);
      if total >= limit {
        return LimitReached;
      }
      audio := audio[token := Audio(true, now)];
      if claim.NotMade? {
        return ClaimFailed;
      }
      meta := meta[token := Incomplete];
      if claim.CutShort? {
        return ClaimFailed;
      }
      meta := meta[token := Complete(ClaimBy(process, ticksReadable, now, ttl))];
      return Created;
    }

    /** The size of all regular files that are there. */
    method MeasureTotal(listing: seq<Token>, sizeOf: Token -> nat) returns (total: nat)
      ensures total == TotalBytes(listing, audio, sizeOf)
    {
      total := 0;
      for i := 0 to |listing|
        invariant total == TotalBytes(listing[..i], audio, sizeOf)
      {
        assert listing[..i + 1][..i] == listing[..i];
        if listing[i] in audio && audio[listing[i]].regular {
          total := total + sizeOf(listing[i]);
        }
      }
      assert listing[..|listing|] == listing;
    }

    /**
     Deletes a file of the area and then its claim, and nothing for any other path; `stuckFile` and
     `stuckClaim` say which deletion the system refuses.
     */
    method Release(path: AreaPath, stuckFile: bool, stuckClaim: bool) returns (raised: bool)
      modifies this
      ensures raised <==> path.Inside? && (stuckFile || stuckClaim)
      ensures audio == if path.Inside? && !stuckFile then old(audio) - {path.token} else old(audio)
      ensures meta == if path.Inside? && !stuckFile && !stuckClaim then old(meta) - {path.token} else old(meta)
    {
      if path.Elsewhere? {
        return false;
      }
      if stuckFile {
        return true;
      }
      audio := audio - {path.token};
      if stuckClaim {
        return true;
      }
      meta := meta - {path.token};
      return false;
    }

    ghost function Doomed(now: int, boot: nat, running: map<nat, nat>, expireAll: bool): set<Token>
      reads this
    {
      set t | t in audio && (expireAll || Reclaimable(audio, meta, t, now, boot, running, ttl))
    }

    /**
     Removes exactly the reclaimable files whose deletion succeeds, with their claims, keeps every
     other file with its claim, and leaves no claim without a file unless its deletion is refused.
     Every entry is counted once, as removed, retained or failed; a file that went while its claim
     stayed counts as failed.
     */
    method Sweep(listing: seq<Token>, now: int, boot: nat, running: map<nat, nat>, expireAll: bool, refused: Refusals)
      returns (removed: nat, retained: nat, failed: seq<Token>)
      requires NoDuplicates(listing) && forall t :: t in listing <==> t in audio
      modifies this
      ensures var doomed := old(Doomed(now, boot, running, expireAll));
              && audio == old(audio) - (doomed - refused.files)
              && meta == ClaimsLeft(old(meta), audio, doomed, refused)
              && failed == Chosen(listing, doomed * (refused.files + refused.claims))
              && (forall t :: t in failed <==> t in doomed && (t in refused.files || t in refused.claims))
              && retained == |Without(listing, doomed)|
      ensures removed + retained + |failed| == |listing|
    {
      ghost var audio0, meta0, doomed := audio, meta, Doomed(now, boot, running, expireAll);
      removed, retained, failed := VisitAll(listing, now, boot, running, expireAll, refused);
      SweptShape(audio0, meta0, listing, doomed, refused);
      assert (set t | t in listing) * (doomed - refused.files) == doomed - refused.files;
      forall t ensures t in failed <==> t in doomed && (t in refused.files || t in refused.claims) {
        ChosenMembers(listing, doomed * (refused.files + refused.claims), t);
      }
      DropOrphans(refused.orphans);
    }

    /** The first pass, entry by entry. */
    method VisitAll(
      listing: seq<Token>, now: int, boot: nat, running: map<nat, nat>, expireAll: bool, refused: Refusals)
      returns (removed: nat, retained: nat, failed: seq<Token>)
      requires NoDuplicates(listing) && forall t :: t in listing <==> t in audio
      modifies this
      ensures Swept(audio, meta, removed, retained, failed)
           == SweptBy(old(audio), old(meta), listing, old(Doomed(now, boot, running, expireAll)), refused)
    {
      removed, retained, failed := 0, 0, [];
      ghost var audio0, meta0, doomed := audio, meta, Doomed(now, boot, running, expireAll);
      for i := 0 to |listing|
        invariant Swept(audio, meta, removed, retained, failed) == SweptBy(audio0, meta0, listing[..i], doomed, refused)
      {
        var t := listing[i];
        assert listing[..i + 1][..i] == listing[..i];
        Untouched(listing, i, audio0, meta0, doomed, refused);
        var fate := Visit(t, now, boot, running, expireAll, t in refused.files, t in refused.claims);
        assert fate.Retained? <==> t !in doomed;
        match fate {
          case Retained => retained := retained + 1;
          case Stuck => failed := failed + [t];
          case Removed => removed := removed + 1;
        }
      }
      assert listing[..|listing|] == listing;
    }

    /** An entry is as the sweep found it until it is visited. */
    static lemma Untouched(
      listing: seq<Token>, i: nat, audio: map<Token, Audio>, meta: map<Token, Meta>, doomed: set<Token>,
      refused: Refusals)
      requires NoDuplicates(listing) && i < |listing|
      ensures var r, t := SweptBy(audio, meta, listing[..i], doomed, refused), listing[i];
              && (t in r.audio <==> t in audio) && (t in audio ==> r.audio[t] == audio[t])
              && (t in r.meta <==> t in meta) && (t in meta ==> r.meta[t] == meta[t])
    {
      SweptShape(audio, meta, listing[..i], doomed, refused);
      assert listing[i] !in listing[..i];
    }

    /** One entry: decide, and remove the file and then its claim; a refused deletion ends the attempt. */
    method Visit(
      t: Token, now: int, boot: nat, running: map<nat, nat>, expireAll: bool, stuckFile: bool, stuckClaim: bool)
      returns (fate: Fate)
      modifies this
      ensures var doomed := expireAll || Reclaimable(old(audio), old(meta), t, now, boot, running, ttl);
              && fate == (if !doomed then Retained else if stuckFile || stuckClaim then Stuck else Removed)
              && audio == (if doomed && !stuckFile then old(audio) - {t} else old(audio))
              && meta == (if fate == Removed then old(meta) - {t} else old(meta))
    {
      if !(expireAll || Reclaimable(audio, meta, t, now, boot, running, ttl)) {
        return Retained;
      }
      if stuckFile {
        return Stuck;
      }
      audio := audio - {t};
      if stuckClaim {
        return Stuck;
      }
      meta := meta - {t};
      fate := Removed;
    }

    /** The second pass: a claim whose file is gone goes too, unless the system refuses. */
    method DropOrphans(refused: set<Token>)
      modifies this`meta
      ensures meta == map t | t in old(meta) && (t in audio || t in refused) :: old(meta)[t]
    {
      var left := meta.Keys;
      while left != {}
        invariant left <= old(meta).Keys
        invariant meta == map t | t in old(meta) && (t in left || t in audio || t in refused) :: old(meta)[t]
        decreases left
      {
        var t :| t in left;
        left := left - {t};
        if t !in audio && t !in refused {
          meta := meta - {t};
        }
      }
    }
  }
}
