/**
 * File-system watch events as the front end receives them from the Tauri fs
 * plugin, and the duck-typed guards that classify them. The guards inspect
 * a loosely typed JavaScript value, so the event is modelled as that value:
 * `type` may be null, a bare string such as `"any"`, or an object whose
 * properties are tagged inner objects.
 */
module WatchEvents {
  import opened Wrappers

  /** The value under one tag of the `type` object, e.g. the `{kind: 'data'}` of `modify`. */
  datatype Inner =
    | InnerNull
    | InnerPrimitive                 // a string, number or boolean: `typeof` is not 'object'
    | InnerObject(kind: Option<string>)

  /** `event.type`. */
  datatype EventType =
    | TypeNull
    | TypeString(text: string)
    | TypeObject(tags: map<string, Inner>)

  /** The event argument; `Absent` is a falsy argument (undefined or null). */
  datatype WatchEvent = Absent | Event(eventType: EventType, paths: seq<string>)

  /** The object under `tag`, when `event.type` is an object having that tag bound to a non-null object. */
  predicate HasTagObject(e: WatchEvent, tag: string) {
    e.Event? && e.eventType.TypeObject? && tag in e.eventType.tags && e.eventType.tags[tag].InnerObject?
  }

  /** `isModifyEvent`: a `modify` object that has a `kind`. */
  predicate IsModifyEvent(e: WatchEvent) {
    HasTagObject(e, "modify") && e.eventType.tags["modify"].kind.Some?
  }

  /** `isDataModifyEvent`. */
  predicate IsDataModifyEvent(e: WatchEvent) {
    HasTagObject(e, "modify") && e.eventType.tags["modify"].kind == Some("data")
  }

  /** `isMetadataModifyEvent`. */
  predicate IsMetadataModifyEvent(e: WatchEvent) {
    HasTagObject(e, "modify") && e.eventType.tags["modify"].kind == Some("metadata")
  }

  /** `isCreateEvent`. */
  predicate IsCreateEvent(e: WatchEvent) {
    HasTagObject(e, "create")
  }

  /** `isRemoveEvent`. */
  predicate IsRemoveEvent(e: WatchEvent) {
    HasTagObject(e, "remove")
  }

  /** `isAccessEvent`. */
  predicate IsAccessEvent(e: WatchEvent) {
    HasTagObject(e, "access")
  }

  // ---------------------------------------------------------------------------
  // The typed reference: the plugin's `WatchEventKind` union
  // ---------------------------------------------------------------------------

  /** What the plugin actually sends: `"any"`, `"other"`, or one tag with its kind. */
  datatype Kind =
    | AnyKind
    | OtherKind
    | Access(accessKind: string)
    | Create(createKind: string)
    | Modify(modifyKind: string)
    | Remove(removeKind: string)

  /** The JavaScript value the plugin delivers for a kind. */
  function Encode(k: Kind, paths: seq<string>): (e: WatchEvent)
    ensures e.Event? && e.paths == paths
    ensures e.eventType.TypeObject? ==> |e.eventType.tags| == 1
  {
    var t := match k
      case AnyKind => TypeString("any")
      case OtherKind => TypeString("other")
      case Access(a) => TypeObject(map["access" := InnerObject(Some(a))])
      case Create(c) => TypeObject(map["create" := InnerObject(Some(c))])
      case Modify(m) => TypeObject(map["modify" := InnerObject(Some(m))])
      case Remove(r) => TypeObject(map["remove" := InnerObject(Some(r))]);
    Event(t, paths)
  }

  lemma {:induction false} TagsDistinct()
    ensures "modify" != "create" && "modify" != "remove" && "modify" != "access"
    ensures "create" != "remove" && "create" != "access" && "remove" != "access"
  {
    assert "modify"[0] != "create"[0] && "modify"[0] != "remove"[0] && "modify"[0] != "access"[0];
    assert "create"[0] != "remove"[0] && "create"[0] != "access"[0] && "remove"[0] != "access"[0];
  }

  /** On what the plugin sends, each guard recognises exactly its own variant. */
  lemma {:induction false} GuardsMatchKinds(k: Kind, paths: seq<string>)
    ensures IsDataModifyEvent(Encode(k, paths)) <==> k == Modify("data")
    ensures IsMetadataModifyEvent(Encode(k, paths)) <==> k == Modify("metadata")
    ensures IsModifyEvent(Encode(k, paths)) <==> k.Modify?
    ensures IsCreateEvent(Encode(k, paths)) <==> k.Create?
    ensures IsRemoveEvent(Encode(k, paths)) <==> k.Remove?
    ensures IsAccessEvent(Encode(k, paths)) <==> k.Access?
  {
    TagsDistinct();
  }

  // ---------------------------------------------------------------------------
  // Classification facts over every value
  // ---------------------------------------------------------------------------

  lemma {:induction false} DataMetadataExclusive(e: WatchEvent)
    ensures !(IsDataModifyEvent(e) && IsMetadataModifyEvent(e))
  {
    assert "data" != "metadata";
  }

  lemma {:induction false} SpecificModifyIsModify(e: WatchEvent)
    ensures IsDataModifyEvent(e) ==> IsModifyEvent(e)
    ensures IsMetadataModifyEvent(e) ==> IsModifyEvent(e)
  {
  }

  /** An event whose `type` object carries one tag satisfies at most one of the tag guards. */
  lemma {:induction false} SingleTagExclusive(e: WatchEvent)
    requires e.Event? && e.eventType.TypeObject? && |e.eventType.tags| == 1
    ensures !(IsCreateEvent(e) && IsRemoveEvent(e))
    ensures !(IsCreateEvent(e) && IsAccessEvent(e))
    ensures !(IsRemoveEvent(e) && IsAccessEvent(e))
    ensures !(IsModifyEvent(e) && (IsCreateEvent(e) || IsRemoveEvent(e) || IsAccessEvent(e)))
  {
    var tags := e.eventType.tags;
    TagsDistinct();
    forall a, b | a in tags && b in tags ensures a == b {
      if a != b {
        assert {a, b} <= tags.Keys;
        assert |{a, b}| == 2;
        SubsetCard({a, b}, tags.Keys);
      }
    }
  }

  lemma {:induction false} SubsetCard(a: set<string>, b: set<string>)
    requires a <= b
    ensures |a| <= |b|
  {
    assert b == a + (b - a);
  }

  /** A null `type`, a bare string `type` or a falsy event matches no guard. */
  lemma {:induction false} NonObjectMatchesNothing(e: WatchEvent)
    requires e.Absent? || e.eventType.TypeNull? || e.eventType.TypeString?
    ensures !IsModifyEvent(e) && !IsDataModifyEvent(e) && !IsMetadataModifyEvent(e)
    ensures !IsCreateEvent(e) && !IsRemoveEvent(e) && !IsAccessEvent(e)
  {
  }
}
