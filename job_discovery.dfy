/**
 * The job-discovery page's saved jobs: the toggle that adds or removes a job id, the
 * saved count it displays, and the badge colour of each job type.
 */
module JobDiscovery {
  import opened Seqs

  function Other(id: string): string -> bool {
    (x: string) => x != id
  }

  /** The list after `toggleSaveJob(id)`: a saved id is dropped everywhere it occurs, an
      unsaved one is appended. */
  function Toggled(saved: seq<string>, id: string): (r: seq<string>)
    ensures id in saved ==> id !in r && IsSubsequence(r, saved)
    ensures id in saved ==> multiset(r) == multiset(saved)[id := 0]
    ensures id !in saved ==> r == saved + [id]
  {
    if id in saved then
      FilterIsSubsequence(saved, Other(id));
      FilterMembership(saved, Other(id), id);
      DropAllCopies(saved, id);
      Filter(saved, Other(id))
    else saved + [id]
  }

  /** Filtering out an id drops every copy of it and keeps every copy of every other id. */
  lemma {:induction false} DropAllCopies(saved: seq<string>, id: string)
    ensures multiset(Filter(saved, Other(id))) == multiset(saved)[id := 0]
  {
    if saved != [] {
      var init, last := saved[..|saved| - 1], saved[|saved| - 1];
      assert saved == init + [last];
      DropAllCopies(init, id);
      assert multiset(saved) == multiset(init) + multiset{last};
      if last == id {
        assert multiset(saved)[id := 0] == multiset(init)[id := 0];
      } else {
        assert multiset(saved)[id := 0] == multiset(init)[id := 0] + multiset{last};
      }
    }
  }

  /** A toggle flips the toggled id and leaves every other id as it was. */
  lemma ToggleFlips(saved: seq<string>, id: string, other: string)
    ensures id in Toggled(saved, id) <==> id !in saved
    ensures other != id ==> (other in Toggled(saved, id) <==> other in saved)
  {
    if id in saved {
      FilterMembership(saved, Other(id), other);
    }
  }

  /** Saving an unsaved id and toggling it again gives back the original list. */
  lemma ToggleTwice(saved: seq<string>, id: string)
    requires id !in saved
    ensures Toggled(Toggled(saved, id), id) == saved
  {
    var s := saved + [id];
    assert s[|s| - 1] == id;
    assert s[..|s| - 1] == saved;
    assert Filter(s, Other(id)) == Filter(saved, Other(id));
    forall i | 0 <= i < |saved|
      ensures Other(id)(saved[i])
    {
      assert saved[i] in saved;
    }
    FilterAll(saved, Other(id));
  }

  /** The page's saved jobs. */
  class SavedJobs {
    var saved: seq<string>

    constructor ()
      ensures saved == ["2", "5"]
    {
      saved := ["2", "5"];
    }

    /** `toggleSaveJob`. */
    method Toggle(id: string)
      modifies this
      ensures saved == Toggled(old(saved), id)
      ensures id in saved <==> id !in old(saved)
    {
      ToggleFlips(saved, id, id);
      saved := Toggled(saved, id);
    }

    /** The "Saved Jobs" counter. */
    function SavedCount(): (n: nat)
      reads this
      ensures n == |saved|
    {
      |saved|
    }
  }

  /** `getTypeColor`. */
  function TypeColor(jobType: string): (c: string)
    ensures jobType == "internship" ==> c == "bg-blue-100 text-blue-700"
    ensures jobType == "entry-level" ==> c == "bg-green-100 text-green-700"
    ensures jobType == "co-op" ==> c == "bg-purple-100 text-purple-700"
    ensures jobType !in {"internship", "entry-level", "co-op"} <==> c == "bg-gray-100 text-gray-700"
  {
    if jobType == "internship" then "bg-blue-100 text-blue-700"
    else if jobType == "entry-level" then "bg-green-100 text-green-700"
    else if jobType == "co-op" then "bg-purple-100 text-purple-700"
    else "bg-gray-100 text-gray-700"
  }
}
