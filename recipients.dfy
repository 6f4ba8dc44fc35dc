/** Recipient selection shared by both notify handlers: walk the subscriber
    ids in order, skip the author, look up each user's address and keep it
    unless PHP's `empty()` holds of it. Duplicates are kept. */
module Recipients {
  import opened Base

  type UserId = int

  /** `!empty($user->user_email)` after `get_userdata($id)`: `None` stands for
      a user that does not exist (the lookup returned false). */
  predicate Usable(e: Option<string>) {
    e.Some? && !PhpEmptyString(e.value)
  }

  /** What one subscriber id contributes to the recipient list. */
  function Contribution(id: UserId, author: UserId, emailOf: UserId -> Option<string>): seq<string> {
    if id != author && Usable(emailOf(id)) then [emailOf(id).value] else []
  }

  /** The recipient list for the subscribers `ids`, as the foreach loop
      builds it: one append per id, in subscriber order. */
  function Eligible(ids: seq<UserId>, author: UserId, emailOf: UserId -> Option<string>): (r: seq<string>)
    ensures |r| <= |ids|
    ensures forall e :: e in r ==> !PhpEmptyString(e)
  {
    if ids == [] then []
    else Eligible(ids[..|ids| - 1], author, emailOf) + Contribution(ids[|ids| - 1], author, emailOf)
  }

  /** Selection distributes over concatenation, so the list keeps subscriber order. */
  lemma {:induction false} EligibleAppend(a: seq<UserId>, b: seq<UserId>, author: UserId, emailOf: UserId -> Option<string>)
    ensures Eligible(a + b, author, emailOf) == Eligible(a, author, emailOf) + Eligible(b, author, emailOf)
    decreases |b|
  {
    if b == [] {
      assert a + b == a;
    } else {
      var b' := b[..|b| - 1];
      assert (a + b)[..|a + b| - 1] == a + b';
      EligibleAppend(a, b', author, emailOf);
    }
  }

  /** An address is selected exactly when some subscriber other than the
      author has it as a usable address. */
  lemma {:induction false} EligibleMembership(ids: seq<UserId>, author: UserId, emailOf: UserId -> Option<string>, e: string)
    ensures e in Eligible(ids, author, emailOf) <==>
      exists i :: 0 <= i < |ids| && ids[i] != author && Usable(emailOf(ids[i])) && emailOf(ids[i]).value == e
    decreases |ids|
  {
    if ids != [] {
      var init := ids[..|ids| - 1];
      EligibleMembership(init, author, emailOf, e);
      if e in Eligible(init, author, emailOf) {
        var i :| 0 <= i < |init| && init[i] != author && Usable(emailOf(init[i])) && emailOf(init[i]).value == e;
        assert ids[i] == init[i];
      }
      if exists i :: 0 <= i < |ids| && ids[i] != author && Usable(emailOf(ids[i])) && emailOf(ids[i]).value == e {
        var i :| 0 <= i < |ids| && ids[i] != author && Usable(emailOf(ids[i])) && emailOf(ids[i]).value == e;
        if i < |init| {
          assert init[i] == ids[i];
        }
      }
    }
  }

  /** The list is empty exactly when every subscriber is the author or has no usable address. */
  lemma {:induction false} EligibleEmpty(ids: seq<UserId>, author: UserId, emailOf: UserId -> Option<string>)
    ensures Eligible(ids, author, emailOf) == [] <==>
      forall i :: 0 <= i < |ids| ==> ids[i] == author || !Usable(emailOf(ids[i]))
    decreases |ids|
  {
    if ids != [] {
      var init := ids[..|ids| - 1];
      EligibleEmpty(init, author, emailOf);
      assert forall i :: 0 <= i < |init| ==> init[i] == ids[i];
    }
  }

  /** The author's own address is never consulted: changing what the lookup
      says about the author leaves the list unchanged. */
  lemma {:induction false} AuthorIgnored(ids: seq<UserId>, author: UserId, emailOf: UserId -> Option<string>, emailOf': UserId -> Option<string>)
    requires forall id :: id != author ==> emailOf(id) == emailOf'(id)
    ensures Eligible(ids, author, emailOf) == Eligible(ids, author, emailOf')
    decreases |ids|
  {
    if ids != [] {
      AuthorIgnored(ids[..|ids| - 1], author, emailOf, emailOf');
    }
  }

  /** The foreach loop of both handlers (emailit_bbpress.php:115-124 and 275-283). */
  method CollectRecipients(ids: seq<UserId>, author: UserId, emailOf: UserId -> Option<string>)
    returns (recipients: seq<string>)
    ensures recipients == Eligible(ids, author, emailOf)
  {
    recipients := [];
    var i := 0;
    while i < |ids|
      invariant 0 <= i <= |ids|
      invariant recipients == Eligible(ids[..i], author, emailOf)
    {
      var userId := ids[i];
      if userId != author {
        var email := emailOf(userId);
        if Usable(email) {
          recipients := recipients + [email.value];
        }
      }
      assert ids[..i + 1][..i] == ids[..i];
      i := i + 1;
    }
    assert ids[..i] == ids;
  }
}
