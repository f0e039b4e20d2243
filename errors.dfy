/** How the batch page and the two buy-then-spray flows turn a thrown error into the one line
    they show: pick the error's text, recognise a few wallet and balance failures, and cut
    everything else down to 150 characters. */
module Errors {
  import opened Text

  /** A thrown error as the pages see it: ethers' `reason` and the `message`. An absent field is
      the empty string, because `undefined` and `''` are both skipped by `||`. */
  datatype Failure = Failure(reason: string, message: string)

  /** `err?.reason || err?.message || 'Transaction failed'`. */
  function RawMessage(f: Failure): (m: string)
    ensures m != []
    ensures m == f.reason || m == f.message || m == "Transaction failed"
  {
    if f.reason != [] then f.reason
    else if f.message != [] then f.message
    else "Transaction failed"
  }

  /** The reason wins over the message, and the fallback text appears only when both are empty. */
  lemma RawMessagePrecedence(f: Failure)
    ensures f.reason != [] ==> RawMessage(f) == f.reason
    ensures f.reason == [] && f.message != [] ==> RawMessage(f) == f.message
    ensures RawMessage(f) == "Transaction failed" <==>
              (f.reason == [] && (f.message == [] || f.message == "Transaction failed"))
              || f.reason == "Transaction failed"
  {
  }

  /** The longest message shown unabridged. */
  const MaxShown: nat := 150

  /** `msg.length > 150 ? msg.slice(0, 150) + '…' : msg`. */
  function Abridge(m: string): (r: string)
    ensures |r| <= MaxShown + 1
  {
    if |m| > MaxShown then m[..MaxShown] + "…" else m
  }

  /** A short message is kept as it is; a long one keeps its first 150 characters and gains
      an ellipsis; abridging twice is abridging once. */
  lemma AbridgeShape(m: string)
    ensures |m| <= MaxShown ==> Abridge(m) == m
    ensures |m| > MaxShown ==>
              |Abridge(m)| == MaxShown + 1 && Abridge(m)[..MaxShown] == m[..MaxShown] && Abridge(m)[MaxShown] == '…'
    ensures Abridge(Abridge(m)) == Abridge(m)
  {
    if |m| > MaxShown {
      var r := Abridge(m);
      assert r[..MaxShown] == m[..MaxShown];
    }
  }

  /** Which page classifies the error: the batch page, a flow's buy-then-spray path (naming the
      asset bought), or a flow's direct path. */
  datatype Screen = BatchPage | BuyPath(asset: string) | DirectPath

  const Rejected: string := "Transaction rejected."
  const Cancelled: string := "Transaction cancelled."
  const NoEth: string := "Insufficient ETH balance."

  function NoAsset(asset: string): string {
    "Insufficient " + asset + " balance. Did the purchase complete?"
  }

  /** The wallet refused: ethers' `user rejected` or MetaMask's `User denied`. */
  predicate IsRefusal(m: string) {
    Contains(m, "user rejected") || Contains(m, "User denied")
  }

  /** The line shown for a failure (the `catch` blocks of `handleSend`, `handleBuyAndSpray` and
      `handleDirectSpray`). */
  function ShownError(screen: Screen, f: Failure): (msg: string)
    ensures msg != []
  {
    var m := RawMessage(f);
    match screen
    case BatchPage =>
      if IsRefusal(m) then Rejected
      else if Contains(m, "insufficient funds") then NoEth
      else Abridge(m)
    case BuyPath(asset) =>
      if IsRefusal(m) then Cancelled
      else if Contains(m, "insufficient") then NoAsset(asset)
      else Abridge(m)
    case DirectPath =>
      if IsRefusal(m) then Cancelled
      else Abridge(m)
  }

  /** A refusal is reported as such on every screen, whatever else the message says. */
  lemma RefusalWins(screen: Screen, f: Failure)
    requires IsRefusal(RawMessage(f))
    ensures ShownError(screen, f) == (if screen.BatchPage? then Rejected else Cancelled)
  {
  }

  /** A message the screen does not recognise is shown as its own first 150 characters. */
  lemma UnrecognisedIsAbridged(screen: Screen, f: Failure)
    requires !IsRefusal(RawMessage(f))
    requires screen.BatchPage? ==> !Contains(RawMessage(f), "insufficient funds")
    requires screen.BuyPath? ==> !Contains(RawMessage(f), "insufficient")
    ensures ShownError(screen, f) == Abridge(RawMessage(f))
    ensures |RawMessage(f)| <= MaxShown ==> ShownError(screen, f) == RawMessage(f)
  {
    AbridgeShape(RawMessage(f));
  }

  /** A pattern that occurs inside a longer pattern occurs wherever that one does. */
  lemma {:induction false} ContainsInner(s: string, t: string, u: string, j: nat)
    requires j + |u| <= |t| && t[j..j + |u|] == u
    requires Contains(s, t)
    ensures Contains(s, u)
  {
    ContainsAt(s, t);
    var i :| OccursAt(s, t, i);
    forall k | 0 <= k < |u| ensures s[i + j + k] == u[k] {
      assert u[k] == t[j + k] == s[i..i + |t|][j + k];
    }
    assert s[i + j..i + j + |u|] == u;
    assert OccursAt(s, u, i + j);
    ContainsAt(s, u);
  }

  /** A message the batch page blames on missing ether is one the buy path blames on the
      missing asset: `insufficient funds` contains `insufficient`. */
  lemma BalanceFailuresAgree(f: Failure, asset: string)
    requires !IsRefusal(RawMessage(f)) && Contains(RawMessage(f), "insufficient funds")
    ensures ShownError(BatchPage, f) == NoEth
    ensures ShownError(BuyPath(asset), f) == NoAsset(asset)
  {
    ContainsInner(RawMessage(f), "insufficient funds", "insufficient", 0);
  }

  /** The direct path is the buy path without the balance rule: the two agree on every message
      that does not mention `insufficient`. */
  lemma DirectIsBuyWithoutBalanceRule(f: Failure, asset: string)
    requires !Contains(RawMessage(f), "insufficient")
    ensures ShownError(DirectPath, f) == ShownError(BuyPath(asset), f)
  {
  }

  /** No pattern ending before the ellipsis is newly created by abridging. */
  lemma {:induction false} AbridgedContains(m: string, t: string)
    requires '…' !in t && Contains(Abridge(m), t)
    ensures Contains(m, t)
  {
    var r := Abridge(m);
    if |m| > MaxShown && t != [] {
      AbridgeShape(m);
      ContainsAt(r, t);
      var i :| OccursAt(r, t, i);
      if i + |t| > MaxShown {
        assert false;
      }
      assert r[i..i + |t|] == m[..MaxShown][i..i + |t|];
      assert OccursAt(m[..MaxShown], t, i);
      ContainsAt(m[..MaxShown], t);
      PrefixContains(m, MaxShown, t);
    } else if t == [] {
      assert StartsWith(m, t);
    }
  }

  /** Abridging a message the rules do not recognise yields one they do not recognise either. */
  lemma AbridgedInert(m: string)
    requires !IsRefusal(m) && !Contains(m, "insufficient funds")
    ensures !IsRefusal(Abridge(m)) && !Contains(Abridge(m), "insufficient funds")
  {
    if Contains(Abridge(m), "user rejected") {
      AbridgedContains(m, "user rejected");
    }
    if Contains(Abridge(m), "User denied") {
      AbridgedContains(m, "User denied");
    }
    if Contains(Abridge(m), "insufficient funds") {
      AbridgedContains(m, "insufficient funds");
    }
  }
}
