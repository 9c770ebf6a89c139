/** The linear membership scan that ResourceManager.cpp and IScriptResource.h
    write out three times (the search-path test and the two language tests). */
module Lists {

  /** Walks `list` from the front and stops at the first element equal to `x`. */
  method Contains(list: seq<string>, x: string) returns (found: bool)
    ensures found <==> x in list
  {
    var i := 0;
    while i < |list|
      invariant 0 <= i <= |list|
      invariant x !in list[..i]
    {
      if list[i] == x {
        return true;
      }
      i := i + 1;
    }
    assert list[..i] == list;
    return false;
  }
}
