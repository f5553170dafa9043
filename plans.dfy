/**
 * The checkout buttons of the pricing page: each payment link gets a label
 * chosen by which plan code it contains.
 */
module Plans {
  import opened Text

  /** What a checkout button is given: its link and its label. */
  datatype ButtonProps = ButtonProps(href: string, text: string)

  /** `getButtonProps(wompiLink)`. */
  function GetButtonProps(wompiLink: string): (p: ButtonProps)
    ensures p.href == wompiLink
    ensures p.text == "Comenzar ahora" <==> (exists i :: OccursAt(wompiLink, "ysVnjr", i))
    ensures p.text == "Ahorrar ahora" <==>
              (forall i :: !OccursAt(wompiLink, "ysVnjr", i)) && (exists i :: OccursAt(wompiLink, "X1EkJt", i))
    ensures p.text == "Pagar ahora" <==>
              (forall i :: !OccursAt(wompiLink, "ysVnjr", i)) && (forall i :: !OccursAt(wompiLink, "X1EkJt", i))
  {
    ButtonProps(
      href := wompiLink,
      text :=
        if Includes(wompiLink, "ysVnjr") then "Comenzar ahora"
        else if Includes(wompiLink, "X1EkJt") then "Ahorrar ahora"
        else "Pagar ahora")
  }

  /** A link that carries both plan codes, in either order, is labelled by
      the first check. */
  lemma BothCodesPreferStart(link: string)
    requires exists i :: OccursAt(link, "ysVnjr", i)
    requires exists j :: OccursAt(link, "X1EkJt", j)
    ensures GetButtonProps(link).text == "Comenzar ahora"
  {
  }
}
