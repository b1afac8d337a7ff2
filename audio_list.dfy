/**
 * The set of audio ids the web service has announced for the account, with a
 * rate-limited warning for ids that are referenced but not announced. Both
 * source trees hold the same class (the older names contains
 * "isAudioIdValid").
 */
module AudioLists {

  /** Five minutes, in milliseconds. */
  const WarningDelayMillis: int := 1000 * 60 * 5

  /** A missing id is warned about when it never was, or when its last warning is more than five minutes old. */
  predicate ShouldWarn(invalidIds: map<string, int>, audioId: string, now: int)
  {
    audioId !in invalidIds || invalidIds[audioId] < now - WarningDelayMillis
  }

  /** After a warning at `now`, the same id is warned about again exactly once the clock is past now + five minutes. */
  lemma WarningsRateLimited(invalidIds: map<string, int>, audioId: string, now: int, later: int)
    ensures ShouldWarn(invalidIds[audioId := now], audioId, later) <==> later > now + WarningDelayMillis
    ensures forall other :: other != audioId ==>
      (ShouldWarn(invalidIds[audioId := now], other, later) <==> ShouldWarn(invalidIds, other, later))
  {
  }

  class AudioList {
    var audioIds: set<string>
    /** The time of the last warning per unknown id. */
    var invalidIds: map<string, int>
    /** The ids warned about, in order (the logger's output). */
    var warnings: seq<string>

    constructor ()
      ensures audioIds == {} && invalidIds == map[] && warnings == []
    {
      audioIds := {};
      invalidIds := map[];
      warnings := [];
    }

    /** contains (isAudioIdValid in the older tree); `now` is System.currentTimeMillis(). */
    method Contains(audioId: string, now: int) returns (found: bool)
      modifies this`invalidIds, this`warnings
      ensures found <==> audioId in audioIds
      ensures found ==> invalidIds == old(invalidIds) && warnings == old(warnings)
      ensures !found && ShouldWarn(old(invalidIds), audioId, now) ==>
        invalidIds == old(invalidIds)[audioId := now] && warnings == old(warnings) + [audioId]
      ensures !found && !ShouldWarn(old(invalidIds), audioId, now) ==>
        invalidIds == old(invalidIds) && warnings == old(warnings)
    {
      if audioId !in audioIds {
        if audioId !in invalidIds || invalidIds[audioId] < now - WarningDelayMillis {
          invalidIds := invalidIds[audioId := now];
          warnings := warnings + [audioId];
        }
        return false;
      }
      return true;
    }

    /** getAudioIds: a read-only view. */
    function GetAudioIds(): (ids: set<string>)
      reads this
      ensures forall id :: id in ids <==> id in audioIds
    {
      audioIds
    }

    function IsEmpty(): (empty: bool)
      reads this
      ensures empty <==> forall id :: id !in audioIds
    {
      audioIds == {}
    }

    /** addAll: whether the set changed. */
    method AddAll(ids: seq<string>) returns (changed: bool)
      modifies this`audioIds
      ensures audioIds == old(audioIds) + set id | id in ids
      ensures changed <==> exists id :: id in ids && id !in old(audioIds)
    {
      var before := audioIds;
      audioIds := audioIds + set id | id in ids;
      changed := audioIds != before;
      if !changed {
        forall id | id in ids ensures id in before {
          assert id in audioIds;
        }
      }
    }

    /** removeAll: whether the set changed. */
    method RemoveAll(ids: seq<string>) returns (changed: bool)
      modifies this`audioIds
      ensures audioIds == old(audioIds) - set id | id in ids
      ensures changed <==> exists id :: id in ids && id in old(audioIds)
    {
      var before := audioIds;
      audioIds := audioIds - set id | id in ids;
      changed := audioIds != before;
      if !changed {
        forall id | id in ids ensures id !in before {
          assert id !in audioIds;
        }
      } else {
        var id :| id in before && id !in audioIds;
        assert id in ids;
      }
    }
  }
}
