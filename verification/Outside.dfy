// Connectors, senders, ciphers, clocks and identifier generators, as far as the code can
// tell: each time they are asked they answer something. Any sequence of answers is possible.
module Outside {
  class Oracle<T> {
    const answers: nat -> T
    var asked: nat

    constructor (answers: nat -> T)
      ensures this.answers == answers && asked == 0
    {
      this.answers := answers;
      this.asked := 0;
    }

    method Ask() returns (answer: T)
      modifies this`asked
      ensures asked == old(asked) + 1 && answer == answers(old(asked))
    {
      answer := answers(asked);
      asked := asked + 1;
    }
  }
}
