/** The two roll buttons of the games mode: when each is disabled and when it glows. */
module RollButtons {

  predicate CategoryButtonDisabled(disabled: bool, isCategorySpinning: bool, isGameSpinning: bool,
                                   allCategoriesDisabled: bool)
  {
    disabled || isCategorySpinning || isGameSpinning || allCategoriesDisabled
  }

  predicate CategoryButtonGlows(disabled: bool, isCategorySpinning: bool, isGameSpinning: bool,
                                allCategoriesDisabled: bool)
  {
    !disabled && !isCategorySpinning && !isGameSpinning && !allCategoriesDisabled
  }

  predicate GameButtonDisabled(disabled: bool, categorySelected: bool, isGameSpinning: bool,
                               isCategorySpinning: bool)
  {
    disabled || !categorySelected || isGameSpinning || isCategorySpinning
  }

  predicate GameButtonGlows(disabled: bool, categorySelected: bool, isGameSpinning: bool,
                            isCategorySpinning: bool)
  {
    !disabled && categorySelected && !isGameSpinning && !isCategorySpinning
  }

  /** A button glows exactly when it can be pressed, and while either wheel spins neither
    * button can be pressed. */
  lemma ButtonsAgree(disabled: bool, categorySelected: bool, isCategorySpinning: bool,
                     isGameSpinning: bool, allCategoriesDisabled: bool)
    ensures CategoryButtonGlows(disabled, isCategorySpinning, isGameSpinning, allCategoriesDisabled)
        <==> !CategoryButtonDisabled(disabled, isCategorySpinning, isGameSpinning, allCategoriesDisabled)
    ensures GameButtonGlows(disabled, categorySelected, isGameSpinning, isCategorySpinning)
        <==> !GameButtonDisabled(disabled, categorySelected, isGameSpinning, isCategorySpinning)
    ensures isCategorySpinning || isGameSpinning ==>
      CategoryButtonDisabled(disabled, isCategorySpinning, isGameSpinning, allCategoriesDisabled)
      && GameButtonDisabled(disabled, categorySelected, isGameSpinning, isCategorySpinning)
  {
  }
}
