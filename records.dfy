/** The two plain records a budget owns besides its badges. Their
    initialisers only copy their arguments. */
module Records {
  import opened Basics

  /** A logged spend. `category` is a copy of a category's name taken when
      the transaction was logged, not a reference to the category. */
  datatype Transaction = Transaction(amount: real, date: Date, transDesc: string, category: string)

  /** A named allocation of part of a budget's limit. Names need not be unique. */
  datatype BudgetCategory = BudgetCategory(name: string, amount: real)
}
