/** The questions that a scrub or a backup asks, and the answers to them. */
module Users {
  /** Whoever sits at the console: the answers are given in the order of the questions. */
  class User {
    const answers: nat -> bool
    var asked: nat

    constructor (answers: nat -> bool)
      ensures this.answers == answers && asked == 0
    {
      this.answers, asked := answers, 0;
    }

    /** The next answer. */
    method Ask() returns (yes: bool)
      modifies this
      ensures asked == old(asked) + 1 && yes == answers(old(asked))
    {
      yes := answers(asked);
      asked := asked + 1;
    }
  }
}
