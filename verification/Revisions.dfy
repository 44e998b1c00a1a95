/** Canonical session revisions: immutable events with unique identities, addressed by their content. */
module Revisions {
  import opened Common

  datatype Event = Event(id: string, role: string, text: string, timestamp: string, origin: string, kind: string)

  datatype SessionRevision = SessionRevision(
    sessionId: string,
    events: seq<Event>,
    source: string,
    project: string,
    title: string,
    parent: Option<string>,
    isSubagent: bool,
    parserVersion: string)

  predicate UniqueIds(events: seq<Event>) {
    forall i, j :: 0 <= i < j < |events| ==> events[i].id != events[j].id
  }

  /** The checks of SessionRevision's constructor that typed fields leave open. */
  predicate Valid(s: SessionRevision) {
    s.sessionId != "" && s.source != "" && UniqueIds(s.events)
  }

  /** The revision is the digest of the whole canonical value, so it stands for the value. */
  datatype RevisionId = RevisionId(of: SessionRevision)

  lemma UniqueIdsPart(events: seq<Event>, lo: nat, hi: nat)
    requires lo <= hi <= |events| && UniqueIds(events)
    ensures UniqueIds(events[lo..hi])
  {
  }
}
