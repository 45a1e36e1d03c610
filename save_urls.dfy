/**
 * The URLs the page scripts post their forms to. A page remembers the id of
 * the record its modal edits (`null` when it creates one); JavaScript treats
 * both `null` and the id 0 as false.
 */
module SaveUrls {
  import opened Wrappers
  import opened Strings

  /** JavaScript truthiness of a remembered id. */
  predicate TruthyId(id: Option<int>) {
    id.Some? && id.value != 0
  }

  /** `${base}${id}/${action}/`, as in `/templates/7/use/`. */
  function ActionUrl(base: string, id: int, action: string): (url: string)
    ensures StartsWith(url, base) && EndsWith(url, "/" + action + "/")
  {
    var url := base + IntToString(id) + "/" + action + "/";
    StartsWithConcat(base, IntToString(id) + "/" + action + "/");
    assert url == base + (IntToString(id) + "/" + action + "/");
    assert url == (base + IntToString(id)) + ("/" + action + "/");
    url
  }

  /** The edit URL of the remembered record when there is one, else the create URL. */
  function SaveUrl(base: string, id: Option<int>): string {
    if TruthyId(id) then ActionUrl(base, id.value, "edit") else base + "create/"
  }

  /** The create URL is chosen exactly when no record is remembered (or its id is 0). */
  lemma SaveUrlCases(base: string, id: Option<int>)
    ensures SaveUrl(base, id) == base + "create/" <==> !TruthyId(id)
  {
    if TruthyId(id) {
      var n := id.value;
      var digits := if n < 0 then NatToString(-n) else NatToString(n);
      assert SaveUrl(base, id)[|base|] == IntToString(n)[0];
      assert IntToString(n)[0] == '-' || IsDigit(IntToString(n)[0]) by {
        if n >= 0 {
          assert IsDigit(digits[0]);
        }
      }
      assert (base + "create/")[|base|] == 'c';
    }
  }
}
