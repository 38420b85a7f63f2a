/** Option and Result, as the source uses them, and the first key of an ordered map. */
module Common {

  datatype Option<+T> = None | Some(value: T)

  datatype Result<+T, +E> = Ok(value: T) | Err(error: E)

  ghost function Least(keys: set<nat>): (k: nat)
    requires keys != {}
    ensures k in keys && forall j :: j in keys ==> k <= j
  {
    var k :| k in keys;
    var rest := keys - {k};
    if rest == {} then
      assert forall j :: j in keys ==> j == k by {
        forall j | j in keys ensures j == k {
          assert j !in rest;
        }
      }
      k
    else
      var m := Least(rest);
      assert forall j :: j in keys ==> j == k || j in rest;
      if k < m then k else m
  }
}
