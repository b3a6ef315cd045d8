/**
 * `CvService`: the section store the projects editor writes and the preview
 * reads. Its value is an object keyed by section name whose values are
 * untyped; here they have the type parameter `T`. As with the document
 * store, the `BehaviorSubject` is the sequence of every value it has held.
 */
module SectionStore {

  /** `{ ...m, [section]: data }` */
  function WithSection<T>(m: map<string, T>, section: string, data: T): (r: map<string, T>)
    ensures section in r && r[section] == data
    ensures r.Keys == m.Keys + {section}
    ensures forall k :: k in m && k != section ==> r[k] == m[k]
  {
    m[section := data]
  }

  /** Writing a section twice: the last write wins. */
  lemma LastWriteWins<T>(m: map<string, T>, section: string, first: T, second: T)
    ensures WithSection(WithSection(m, section, first), section, second) == WithSection(m, section, second)
  {
  }

  /** A write adds at most one key. */
  lemma WithSectionSize<T>(m: map<string, T>, section: string, data: T)
    ensures |WithSection(m, section, data).Keys| <= |m.Keys| + 1
    ensures section in m ==> WithSection(m, section, data).Keys == m.Keys
  {
  }

  class CvService<T> {
    /** Every value `cvData` has held, oldest first; `currentCv$` emits each of them. */
    var history: seq<map<string, T>>

    ghost predicate Valid()
      reads this
    {
      |history| > 0
    }

    /** The subject's current value. */
    function Current(): map<string, T>
      reads this
      requires Valid()
    {
      history[|history| - 1]
    }

    /** The store starts as the empty object. */
    constructor ()
      ensures Valid()
      ensures history == [map[]] && Current() == map[]
    {
      history := [map[]];
    }

    /** `updateSection(section, data)`: publishes the current value with `section` set to `data`. */
    method UpdateSection(section: string, data: T)
      requires Valid()
      modifies this
      ensures Valid()
      ensures history == old(history) + [WithSection(old(Current()), section, data)]
      ensures section in Current() && Current()[section] == data
      ensures forall k :: k in old(Current()) && k != section ==> k in Current() && Current()[k] == old(Current())[k]
      ensures Current().Keys == old(Current()).Keys + {section}
    {
      history := history + [WithSection(Current(), section, data)];
    }

    /** `getCvData()`: the current value; nothing is published. */
    method GetCvData() returns (data: map<string, T>)
      requires Valid()
      ensures data == Current()
    {
      data := history[|history| - 1];
    }
  }
}
