/** The content script's state object: the settings, the lazily created
    audio context and the registry that maps each media element to its
    pipeline, with the operations that update them in place.

    The document is not modelled: the elements that `querySelectorAll`
    would return are passed in as a sequence, whether tapping an element's
    audio succeeds (`createMediaElementSource` not throwing) as a set of
    tappable elements or a flag, and whether a removed element is still in
    the document as a flag. */
module Registry {
  import opened Settings
  import opened Params

  /** A page element; `isMedia` is `instanceof HTMLMediaElement`. */
  datatype Element = Element(id: nat, isMedia: bool)

  /** The shared audio context; only its identity matters here. */
  class AudioContext {
  }

  /** The media elements of `doc` that would gain a pipeline when tapped. */
  function Tappable(doc: seq<Element>, tappable: set<Element>): set<Element>
  {
    set h | h in doc && h.isMedia && h in tappable
  }

  /** The registry after `initOrUpdate`: every tappable media element of
      the document not yet registered gains a newly created pipeline; every
      registered element of the document gets the settings applied;
      registered elements no longer in the document keep their values. */
  function Refreshed(ps: map<Element, Pipeline>, doc: seq<Element>, tappable: set<Element>, s: Settings): (r: map<Element, Pipeline>)
    ensures forall h :: h in ps ==> h in r && (h !in doc ==> r[h] == ps[h])
    ensures forall h :: h in r && h !in ps ==> h in doc && h.isMedia
  {
    map h | h in ps.Keys + Tappable(doc, tappable) ::
      if h in ps then (if h in doc then Applied(ps[h], s) else ps[h]) else Created(s)
  }

  /** Registering and refreshing keeps every pipeline consistent. */
  lemma RefreshedConsistent(ps: map<Element, Pipeline>, doc: seq<Element>, tappable: set<Element>, s: Settings)
    requires InRange(s)
    requires forall h :: h in ps ==> h.isMedia && Consistent(ps[h])
    ensures var r := Refreshed(ps, doc, tappable, s);
      forall h :: h in r ==> h.isMedia && Consistent(r[h])
  {
  }

  /** After a refresh every registered element of the document carries
      exactly the controls the settings dictate, and no registration is
      lost or invented. */
  lemma RefreshedReflectsSettings(ps: map<Element, Pipeline>, doc: seq<Element>, tappable: set<Element>, s: Settings)
    requires forall h :: h in ps ==> Params.Fixed(ps[h])
    ensures var r := Refreshed(ps, doc, tappable, s);
      r.Keys == ps.Keys + Tappable(doc, tappable) &&
      forall h :: h in r && h in doc ==> r[h] == Created(s)
  {
  }

  /** A refresh never drops a registration, and an element not yet
      registered gains a pipeline exactly when it is a tappable media
      element of the document. */
  lemma RefreshedRegistersTappable(ps: map<Element, Pipeline>, doc: seq<Element>, tappable: set<Element>, s: Settings)
    ensures var r := Refreshed(ps, doc, tappable, s);
      (forall h :: h in ps ==> h in r) &&
      (forall h :: h !in ps ==> (h in r <==> h in doc && h.isMedia && h in tappable))
  {
  }

  /** Refreshing twice with the same document and settings is refreshing once. */
  lemma RefreshedIdempotent(ps: map<Element, Pipeline>, doc: seq<Element>, tappable: set<Element>, s: Settings)
    ensures var r := Refreshed(ps, doc, tappable, s);
      Refreshed(r, doc, tappable, s) == r
  {
  }

  class AuraPhase {
    var enabled: bool
    var speedHz: real
    var intensity: real
    var ctx: AudioContext?
    var pipelines: map<Element, Pipeline>

    function Current(): Settings
      reads this
    {
      Settings(enabled, speedHz, intensity)
    }

    /** Settings in range; only media elements registered, each with a
        consistent pipeline; a pipeline exists only once the context does. */
    ghost predicate Valid()
      reads this
    {
      InRange(Current()) &&
      (pipelines != map[] ==> ctx != null) &&
      forall h :: h in pipelines ==> h.isMedia && Consistent(pipelines[h])
    }

    /** Valid except that h's pipeline may still hold the gains it was
        built with: the state between registering and applying. */
    ghost predicate ValidBut(h: Element)
      reads this
    {
      InRange(Current()) &&
      (pipelines != map[] ==> ctx != null) &&
      forall k :: k in pipelines ==>
        k.isMedia && (if k == h then Params.Fixed(pipelines[k]) else Consistent(pipelines[k]))
    }

    constructor ()
      ensures Valid()
      ensures Current() == Defaults && ctx == null && pipelines == map[]
    {
      enabled, speedHz, intensity := Defaults.enabled, Defaults.speedHz, Defaults.intensity;
      ctx := null;
      pipelines := map[];
    }

    /** `ensureContext`: the context is created on first use only. */
    method EnsureContext() returns (c: AudioContext)
      modifies this`ctx
      ensures ctx == c
      ensures old(ctx) != null ==> c == old(ctx)
      ensures old(ctx) == null ==> fresh(c)
    {
      if ctx != null {
        return ctx;
      }
      c := new AudioContext;
      ctx := c;
    }

    /** `applyParamsToOne`: a registered element's pipeline gets the
        current settings; an unregistered element is ignored. */
    method ApplyParamsToOne(h: Element)
      requires ValidBut(h)
      modifies this`pipelines
      ensures Valid()
      ensures pipelines == if h in old(pipelines)
        then old(pipelines)[h := Applied(old(pipelines)[h], Current())]
        else old(pipelines)
    {
      if h !in pipelines {
        return;
      }
      AppliedConsistent(pipelines[h], Current());
      pipelines := pipelines[h := Applied(pipelines[h], Current())];
    }

    /** `ensurePipelineFor`: a non-media or already registered element
        changes nothing; otherwise the context is ensured and, when the
        tap succeeds, exactly one entry is added with its parameters
        applied; a failed tap adds nothing. */
    method EnsurePipelineFor(h: Element, tapSucceeds: bool)
      requires Valid()
      modifies this`ctx, this`pipelines
      ensures Valid()
      ensures pipelines == if !h.isMedia || h in old(pipelines) || !tapSucceeds
        then old(pipelines)
        else old(pipelines)[h := Created(Current())]
      ensures !h.isMedia || h in old(pipelines) ==> ctx == old(ctx)
      ensures old(ctx) != null ==> ctx == old(ctx)
      ensures ctx != null || (!h.isMedia || h in old(pipelines))
    {
      if !h.isMedia || h in pipelines {
        return;
      }
      var ac := EnsureContext();
      if !tapSucceeds {
        return;
      }
      CreatedConsistent(Current());
      pipelines := pipelines[h := Built(speedHz)];
      ApplyParamsToOne(h);
    }

    /** `applyParamsToAll`: every registered element of the document gets
        the current settings; registrations are unchanged. */
    method ApplyParamsToAll(doc: seq<Element>)
      requires Valid()
      modifies this`pipelines
      ensures Valid()
      ensures pipelines.Keys == old(pipelines).Keys
      ensures forall h :: h in pipelines ==>
        pipelines[h] == if h in doc then Applied(old(pipelines)[h], Current()) else old(pipelines)[h]
    {
      var i := 0;
      while i < |doc|
        invariant 0 <= i <= |doc|
        invariant Valid()
        invariant pipelines.Keys == old(pipelines).Keys
        invariant forall h :: h in pipelines ==>
          pipelines[h] == if h in doc[..i] then Applied(old(pipelines)[h], Current()) else old(pipelines)[h]
      {
        var h := doc[i];
        if h in pipelines && h in doc[..i] {
          AppliedIdempotent(old(pipelines)[h], Current());
        }
        ApplyParamsToOne(h);
        assert doc[..i + 1] == doc[..i] + [h];
        i := i + 1;
      }
      assert doc[..i] == doc;
    }

    /** `initOrUpdate`: registers the document's media elements, then
        applies the settings to every registered element of the document. */
    method InitOrUpdate(doc: seq<Element>, tappable: set<Element>)
      requires Valid()
      modifies this`ctx, this`pipelines
      ensures Valid()
      ensures pipelines == Refreshed(old(pipelines), doc, tappable, Current())
      ensures old(ctx) != null ==> ctx == old(ctx)
      ensures (forall h :: h in doc && h.isMedia ==> h in old(pipelines)) ==> ctx == old(ctx)
    {
      var s := Current();
      var i := 0;
      while i < |doc|
        invariant 0 <= i <= |doc|
        invariant Valid() && Current() == s
        invariant pipelines.Keys == old(pipelines).Keys + Tappable(doc[..i], tappable)
        invariant forall h :: h in pipelines ==>
          pipelines[h] == if h in old(pipelines) then old(pipelines)[h] else Created(s)
        invariant old(ctx) != null ==> ctx == old(ctx)
        invariant (forall h :: h in doc && h.isMedia ==> h in old(pipelines)) ==> ctx == old(ctx)
      {
        EnsurePipelineFor(doc[i], doc[i] in tappable);
        assert doc[..i + 1] == doc[..i] + [doc[i]];
        i := i + 1;
      }
      assert doc[..i] == doc;
      ApplyParamsToAll(doc);
      forall h | h in pipelines
        ensures pipelines[h] == Refreshed(old(pipelines), doc, tappable, s)[h]
      {
        if h !in old(pipelines) {
          CreatedIsApplied(s);
        }
      }
    }

    /** The observer callback of a registered element: once the element is
        no longer in the document its entry, and only its entry, is
        forgotten; nothing is torn down. */
    method Forget(h: Element, inDocument: bool)
      requires Valid()
      modifies this`pipelines
      ensures Valid()
      ensures pipelines == if inDocument then old(pipelines) else old(pipelines) - {h}
    {
      if !inDocument {
        pipelines := pipelines - {h};
      }
    }

    /** `loadSettings`: the settings come from storage, normalised. */
    method LoadSettings(st: Stored)
      requires Valid()
      modifies this`enabled, this`speedHz, this`intensity
      ensures Valid()
      ensures Current() == Load(st)
    {
      LoadInRange(st);
      enabled := if st.enabled.Some? then st.enabled.value else Defaults.enabled;
      speedHz := SpeedFrom(if st.speedHz.Some? then st.speedHz.value else Defaults.speedHz);
      intensity := IntensityFrom(if st.intensity.Some? then st.intensity.value else Defaults.intensity);
    }

    /** Start-up: load the settings, then register and update the document. */
    method Start(st: Stored, doc: seq<Element>, tappable: set<Element>)
      requires Valid()
      modifies this
      ensures Valid()
      ensures Current() == Load(st)
      ensures pipelines == Refreshed(old(pipelines), doc, tappable, Load(st))
      ensures old(ctx) != null ==> ctx == old(ctx)
    {
      LoadSettings(st);
      InitOrUpdate(doc, tappable);
    }

    /** The runtime message handler: an accepted message merges the
        fields it carries into the settings, then the document is
        registered and updated; any other message changes nothing. */
    method OnMessage(msg: Option<Message>, doc: seq<Element>, tappable: set<Element>)
      requires Valid()
      modifies this
      ensures Valid()
      ensures Current() == Merge(old(Current()), msg)
      ensures pipelines == if Accepted(msg)
        then Refreshed(old(pipelines), doc, tappable, Current())
        else old(pipelines)
      ensures !Accepted(msg) ==> ctx == old(ctx)
      ensures old(ctx) != null ==> ctx == old(ctx)
    {
      if msg.None? || msg.value.kind != MessageType {
        return;
      }
      var m := msg.value;
      MergeInRange(Current(), msg);
      if m.enabled.Some? {
        enabled := m.enabled.value;
      }
      if m.speedHz.Some? {
        speedHz := SpeedFrom(m.speedHz.value);
      }
      if m.intensity.Some? {
        intensity := IntensityFrom(m.intensity.value);
      }
      InitOrUpdate(doc, tappable);
    }
  }
}
