/** Keyboard sampling (main.js:63-69, 97-100, 105). `keys` is the down/up map
    the key listeners write; `pressed` is the latch pressedOnce keeps per key. */
module Input {

  type KeyMap = map<string, bool>

  /** `m[k]` read as a condition: a key never seen is undefined, hence false. */
  predicate Held(m: KeyMap, k: string)
  {
    k in m && m[k]
  }

  /** What one call of pressedOnce returns, and the latch it leaves. */
  datatype Poll = Poll(fired: bool, latch: KeyMap)

  /** pressedOnce(k): fires on the poll that first sees the key down, sets the
      latch then, and clears the latch on a poll that sees the key up. */
  function PressStep(keys: KeyMap, latch: KeyMap, k: string): (p: Poll)
    ensures p.fired <==> Held(keys, k) && !Held(latch, k)
    ensures Held(p.latch, k) <==> Held(keys, k)
    ensures p.latch - {k} == latch - {k}
  {
    if !Held(latch, k) && Held(keys, k) then Poll(true, latch[k := true])
    else if Held(latch, k) && !Held(keys, k) then Poll(false, latch[k := false])
    else Poll(false, latch)
  }

  /** While a key stays down, every poll after the first returns false. */
  lemma HeldKeyFiresOnce(keys: KeyMap, latch: KeyMap, k: string)
    requires Held(keys, k)
    ensures !PressStep(keys, PressStep(keys, latch, k).latch, k).fired
  {
  }

  /** A poll that sees the key up returns false and clears the latch, so the
      next poll that sees it down fires again. */
  lemma ReleaseRearms(up: KeyMap, down: KeyMap, latch: KeyMap, k: string)
    requires !Held(up, k) && Held(down, k)
    ensures !PressStep(up, latch, k).fired
    ensures !Held(PressStep(up, latch, k).latch, k)
    ensures PressStep(down, PressStep(up, latch, k).latch, k).fired
  {
  }

  /** `pressedOnce(' ') || pressedOnce('space')`: the 'space' entry is polled
      only when the ' ' poll returned false. */
  function FireEdge(keys: KeyMap, latch: KeyMap): (p: Poll)
    ensures p.fired <==> (Held(keys, " ") && !Held(latch, " "))
                         || (Held(keys, "space") && !Held(latch, "space"))
    ensures Held(p.latch, " ") <==> Held(keys, " ")
    ensures Held(p.latch, "space") <==>
              if Held(keys, " ") && !Held(latch, " ") then Held(latch, "space") else Held(keys, "space")
    ensures p.latch - {" ", "space"} == latch - {" ", "space"}
  {
    var first := PressStep(keys, latch, " ");
    if first.fired then first
    else
      var second := PressStep(keys, first.latch, "space");
      assert second.latch - {" ", "space"} == (second.latch - {"space"}) - {" "};
      assert first.latch - {" ", "space"} == (first.latch - {" "}) - {"space"};
      second
  }

  /** Because of the short circuit, a tick that sees both ' ' and 'space' go
      down leaves the 'space' latch unset, so the next tick fires again while
      both keys are still held. */
  lemma BothFireKeysFireTwice(keys: KeyMap, latch: KeyMap)
    requires Held(keys, " ") && Held(keys, "space")
    requires !Held(latch, " ") && !Held(latch, "space")
    ensures FireEdge(keys, latch).fired
    ensures FireEdge(keys, FireEdge(keys, latch).latch).fired
    ensures !FireEdge(keys, FireEdge(keys, FireEdge(keys, latch).latch).latch).fired
  {
  }
}
