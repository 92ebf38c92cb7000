/** Where the slices of a list start when it is cut into pieces of one size. */
module Slices {

  function Min(a: nat, b: nat): nat {
    if a <= b then a else b
  }

  /** How many elements `k` full slices hold. */
  function Start(size: nat, k: nat): nat {
    if k == 0 then 0 else Start(size, k - 1) + size
  }
}
