/**
 * The billing modal (src/components/BillingInformation.tsx): the list of
 * cards that starts with the default card, the add and remove handlers, the
 * two modal flags, and the `pattern` constraints of the add-card form.
 */
module BillingInformation {

  // ---------------------------------------------------------------------
  // Field patterns
  // ---------------------------------------------------------------------

  /** One regular-expression atom: `\d` (an ASCII digit) or a literal character. */
  datatype Atom = AnyDigit | Literal(c: char)

  /** `atom{min,max}`. */
  datatype Term = Term(atom: Atom, min: nat, max: nat)

  /** A `pattern` attribute value: a concatenation of quantified atoms. */
  type Pattern = seq<Term>

  predicate IsDigit(c: char)
  {
    '0' <= c <= '9'
  }

  predicate AtomMatches(a: Atom, c: char)
  {
    match a
    case AnyDigit => IsDigit(c)
    case Literal(l) => c == l
  }

  predicate AllMatch(a: Atom, s: string)
  {
    forall i :: 0 <= i < |s| ==> AtomMatches(a, s[i])
  }

  /**
   * The whole value matches the pattern: the browser anchors a `pattern`
   * at both ends of the value.
   */
  predicate FullMatch(p: Pattern, s: string)
    decreases |p|
  {
    if p == [] then s == []
    else
      exists n :: p[0].min <= n <= p[0].max && n <= |s| &&
        AllMatch(p[0].atom, s[..n]) && FullMatch(p[1..], s[n..])
  }

  /** `\d{16}` */
  const CardNumberPattern: Pattern := [Term(AnyDigit, 16, 16)]
  /** `\d{2}/\d{2}` */
  const ExpiryPattern: Pattern := [Term(AnyDigit, 2, 2), Term(Literal('/'), 1, 1), Term(AnyDigit, 2, 2)]
  /** `\d{3,4}` */
  const CvvPattern: Pattern := [Term(AnyDigit, 3, 4)]

  predicate AllDigits(s: string)
  {
    forall i :: 0 <= i < |s| ==> IsDigit(s[i])
  }

  /** A term with a fixed count consumes exactly that many matching characters. */
  lemma FixedTerm(a: Atom, k: nat, rest: Pattern, s: string)
    ensures FullMatch([Term(a, k, k)] + rest, s) <==>
            k <= |s| && AllMatch(a, s[..k]) && FullMatch(rest, s[k..])
  {
    var p := [Term(a, k, k)] + rest;
    assert p[0] == Term(a, k, k) && p[1..] == rest;
  }

  /** The card number pattern accepts exactly the strings of sixteen digits. */
  lemma CardNumberShape(s: string)
    ensures FullMatch(CardNumberPattern, s) <==> |s| == 16 && AllDigits(s)
  {
    assert CardNumberPattern == [Term(AnyDigit, 16, 16)] + [];
    FixedTerm(AnyDigit, 16, [], s);
    if 16 <= |s| {
      assert s[16..] == [] <==> |s| == 16;
    }
  }

  /** The expiry pattern accepts exactly two digits, a slash and two digits. */
  lemma ExpiryShape(s: string)
    ensures FullMatch(ExpiryPattern, s) <==>
            |s| == 5 && IsDigit(s[0]) && IsDigit(s[1]) && s[2] == '/' && IsDigit(s[3]) && IsDigit(s[4])
  {
    var yy := [Term(AnyDigit, 2, 2)];
    var slashYy := [Term(Literal('/'), 1, 1)] + yy;
    assert ExpiryPattern == [Term(AnyDigit, 2, 2)] + slashYy;
    assert yy == [Term(AnyDigit, 2, 2)] + [];
    FixedTerm(AnyDigit, 2, slashYy, s);
    if 2 <= |s| {
      FixedTerm(Literal('/'), 1, yy, s[2..]);
      if 3 <= |s| {
        assert s[2..][1..] == s[3..];
        FixedTerm(AnyDigit, 2, [], s[3..]);
        if 5 <= |s| {
          assert s[3..][2..] == s[5..];
          assert AllMatch(AnyDigit, s[..2]) <==> IsDigit(s[0]) && IsDigit(s[1]);
          assert AllMatch(Literal('/'), s[2..][..1]) <==> s[2] == '/';
          assert AllMatch(AnyDigit, s[3..][..2]) <==> IsDigit(s[3]) && IsDigit(s[4]);
        }
      }
    }
  }

  /** The CVV pattern accepts exactly three or four digits. */
  lemma CvvShape(s: string)
    ensures FullMatch(CvvPattern, s) <==> (|s| == 3 || |s| == 4) && AllDigits(s)
  {
    var p := CvvPattern;
    if (|s| == 3 || |s| == 4) && AllDigits(s) {
      var n := |s|;
      assert s[..n] == s && s[n..] == [];
      assert p[0].min <= n <= p[0].max && AllMatch(p[0].atom, s[..n]) && FullMatch(p[1..], s[n..]);
    }
    if FullMatch(p, s) {
      var n :| p[0].min <= n <= p[0].max && n <= |s| && AllMatch(p[0].atom, s[..n]) && FullMatch(p[1..], s[n..]);
      assert s == s[..n] + s[n..];
    }
  }

  // ---------------------------------------------------------------------
  // Cards
  // ---------------------------------------------------------------------

  /** A stored card. There is no CVV field. */
  datatype CardInfo = CardInfo(
    organizationName: string,
    fullName: string,
    address: string,
    cardNumber: string,
    expireDate: string)

  /** The six values of the add-card form. */
  datatype CardForm = CardForm(
    organizationName: string,
    fullName: string,
    address: string,
    cardNumber: string,
    expireDate: string,
    cvv: string)

  /**
   * The form passes the browser's constraint validation: every field is
   * `required` (non-empty) and the three patterned fields match in full.
   */
  predicate FormAccepted(f: CardForm)
  {
    && f.organizationName != "" && f.fullName != "" && f.address != ""
    && f.cardNumber != "" && f.expireDate != "" && f.cvv != ""
    && FullMatch(CardNumberPattern, f.cardNumber)
    && FullMatch(ExpiryPattern, f.expireDate)
    && FullMatch(CvvPattern, f.cvv)
  }

  /** What a card added through the form satisfies. */
  predicate EnteredCard(c: CardInfo)
  {
    && c.organizationName != "" && c.fullName != "" && c.address != ""
    && FullMatch(CardNumberPattern, c.cardNumber)
    && FullMatch(ExpiryPattern, c.expireDate)
  }

  /** The card `handleAddCard` builds from the form: the CVV is dropped. */
  function CardOf(f: CardForm): (c: CardInfo)
    ensures FormAccepted(f) ==> EnteredCard(c)
  {
    CardInfo(f.organizationName, f.fullName, f.address, f.cardNumber, f.expireDate)
  }

  /** The stored card does not depend on the CVV at all. */
  lemma CvvDiscarded(f: CardForm, cvv: string)
    ensures CardOf(f.(cvv := cvv)) == CardOf(f)
  {
  }

  /** `filter((_, i) => i !== index)`: keep every element whose position is not `index`. */
  function DropIndex<T>(s: seq<T>, index: int): (r: seq<T>)
    ensures 0 <= index < |s| ==> r == s[..index] + s[index + 1..]
    ensures !(0 <= index < |s|) ==> r == s
  {
    if s == [] then []
    else
      var init := s[..|s| - 1];
      assert s == init + [s[|s| - 1]];
      DropIndex(init, index) + (if index == |s| - 1 then [] else [s[|s| - 1]])
  }

  /** `handleRemoveCard` on the list: position 0 is protected, any other valid position is deleted. */
  function RemoveAt(cards: seq<CardInfo>, index: int): (r: seq<CardInfo>)
    ensures index == 0 || index < 0 || index >= |cards| ==> r == cards
    ensures 0 < index < |cards| ==> |r| == |cards| - 1 && r == cards[..index] + cards[index + 1..]
  {
    if index == 0 then cards
    else DropIndex(cards, index)
  }

  /** Removing never touches the head, and every later card comes from a later position. */
  lemma RemoveAtKeepsHead(cards: seq<CardInfo>, index: int)
    requires |cards| >= 1
    ensures var r := RemoveAt(cards, index);
            |r| >= 1 && r[0] == cards[0] &&
            forall k :: 1 <= k < |r| ==> r[k] in cards[1..]
  {
    var r := RemoveAt(cards, index);
    if 0 < index < |cards| {
      forall k | 1 <= k < |r| ensures r[k] in cards[1..] {
        if k < index {
          assert r[k] == cards[1..][k - 1];
        } else {
          assert r[k] == cards[1..][k];
        }
      }
    } else {
      forall k | 1 <= k < |r| ensures r[k] in cards[1..] {
        assert r[k] == cards[1..][k - 1];
      }
    }
  }

  /** Removal keeps "every card after the head came through the form". */
  lemma RemoveAtKeepsEntered(cards: seq<CardInfo>, index: int)
    requires |cards| >= 1
    requires forall i :: 1 <= i < |cards| ==> EnteredCard(cards[i])
    ensures var r := RemoveAt(cards, index);
            forall i :: 1 <= i < |r| ==> EnteredCard(r[i])
  {
    var r := RemoveAt(cards, index);
    RemoveAtKeepsHead(cards, index);
    forall i | 1 <= i < |r| ensures EnteredCard(r[i]) {
      var j :| 0 <= j < |cards[1..]| && cards[1..][j] == r[i];
      assert cards[j + 1] == r[i];
    }
  }

  /** Adding a card and then removing the last position gives back the list. */
  lemma AddThenRemove(cards: seq<CardInfo>, c: CardInfo)
    requires |cards| >= 1
    ensures RemoveAt(cards + [c], |cards|) == cards
  {
    assert (cards + [c])[..|cards|] == cards;
  }

  /** The modal's state: its card list and the two flags. */
  class BillingInformation {
    const defaultCard: CardInfo
    var cards: seq<CardInfo>
    var isModalOpen: bool
    var isAddingCard: bool

    /** The default card stays at the head; every other card came through the form. */
    ghost predicate Valid()
      reads this
    {
      && |cards| >= 1
      && cards[0] == defaultCard
      && forall i :: 1 <= i < |cards| ==> EnteredCard(cards[i])
    }

    constructor (defaultCard: CardInfo)
      ensures Valid()
      ensures this.defaultCard == defaultCard && cards == [defaultCard]
      ensures !isModalOpen && !isAddingCard
    {
      this.defaultCard := defaultCard;
      cards := [defaultCard];
      isModalOpen := false;
      isAddingCard := false;
    }

    /** The "Billing Account Information" button. */
    method OpenModal()
      requires Valid()
      modifies this
      ensures Valid()
      ensures isModalOpen && cards == old(cards) && isAddingCard == old(isAddingCard)
    {
      isModalOpen := true;
    }

    /** The close button: the modal and the form are both closed. */
    method CloseModal()
      requires Valid()
      modifies this
      ensures Valid()
      ensures !isModalOpen && !isAddingCard && cards == old(cards)
    {
      isModalOpen := false;
      isAddingCard := false;
    }

    /** The "Add New Card" button shows the form. */
    method StartAddingCard()
      requires Valid()
      modifies this
      ensures Valid()
      ensures isAddingCard && cards == old(cards) && isModalOpen == old(isModalOpen)
    {
      isAddingCard := true;
    }

    /** The form's Cancel button. */
    method CancelAddingCard()
      requires Valid()
      modifies this
      ensures Valid()
      ensures !isAddingCard && cards == old(cards) && isModalOpen == old(isModalOpen)
    {
      isAddingCard := false;
    }

    /**
     * `handleAddCard`: append the card built from the form and close the
     * form. The browser only dispatches the submit once the form is accepted.
     */
    method AddCard(form: CardForm)
      requires Valid()
      requires FormAccepted(form)
      modifies this
      ensures Valid()
      ensures cards == old(cards) + [CardOf(form)]
      ensures !isAddingCard && isModalOpen == old(isModalOpen)
    {
      cards := cards + [CardOf(form)];
      isAddingCard := false;
    }

    /** `handleRemoveCard`: refuse position 0, otherwise filter the position out. */
    method RemoveCard(index: int)
      requires Valid()
      modifies this
      ensures Valid()
      ensures cards == RemoveAt(old(cards), index)
      ensures isModalOpen == old(isModalOpen) && isAddingCard == old(isAddingCard)
    {
      RemoveAtKeepsHead(cards, index);
      RemoveAtKeepsEntered(cards, index);
      if index == 0 {
        return;
      }
      cards := DropIndex(cards, index);
    }
  }
}
