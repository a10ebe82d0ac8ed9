/**
 * The conversation loop: read a line, stop on an exit word, otherwise answer
 * it. Terminal input is a finite sequence of lines and the chat model's reply
 * to each line is given alongside it; printing is not modelled.
 */
module Interaction {
  import opened Wrappers
  import opened Text
  import opened Catalog
  import opened Assistant

  /** The line, lower-cased and not trimmed, is "exit" or "quit". */
  predicate IsExit(line: string)
  {
    Lower(line) == "exit" || Lower(line) == "quit"
  }

  /** Only four-character lines stop the loop: no surrounding blanks are ignored. */
  lemma ExitWordsOnly(line: string)
    ensures IsExit(line) ==> |line| == 4
  {
  }

  /** Any mix of cases stops the loop; a padded or different word does not. */
  lemma ExitExamples()
    ensures IsExit("exit") && IsExit("EXIT") && IsExit("Quit")
    ensures !IsExit(" exit") && !IsExit("exit ") && !IsExit("bye")
  {
    ExitWordsOnly(" exit");
    ExitWordsOnly("exit ");
    ExitWordsOnly("bye");
  }

  /**
   * The first |answers| lines are not exit words and each was answered with
   * the assistant's reply to it.
   */
  ghost predicate AnsweredInOrder(catalog: seq<Product>, lines: seq<string>, replies: seq<ModelReply>,
                                  answers: seq<Option<string>>)
  {
    |answers| <= |lines| && |replies| == |lines| &&
    forall k :: 0 <= k < |answers| ==> !IsExit(lines[k]) && answers[k] == Reply(catalog, lines[k], replies[k])
  }

  /** Answering the next line, when it is not an exit word, keeps the transcript in order. */
  lemma AnswerAppended(catalog: seq<Product>, lines: seq<string>, replies: seq<ModelReply>,
                       answers: seq<Option<string>>, answer: Option<string>)
    requires AnsweredInOrder(catalog, lines, replies, answers) && |answers| < |lines|
    requires !IsExit(lines[|answers|])
    requires answer == Reply(catalog, lines[|answers|], replies[|answers|])
    ensures AnsweredInOrder(catalog, lines, replies, answers + [answer])
  {
  }

  /**
   * `interact_with_user`: answers every line before the first exit word, in
   * order, and none after it; the exit line itself is not sent to the assistant.
   */
  method Interact(catalog: seq<Product>, lines: seq<string>, replies: seq<ModelReply>)
    returns (responses: seq<Option<string>>)
    requires |replies| == |lines|
    ensures |responses| <= |lines|
    ensures forall k :: 0 <= k < |responses| ==> !IsExit(lines[k])
    ensures forall k :: 0 <= k < |responses| ==> responses[k] == Reply(catalog, lines[k], replies[k])
    ensures |responses| < |lines| ==> IsExit(lines[|responses|])
  {
    responses := [];
    var i := 0;
    while i < |lines|
      invariant |responses| == i && AnsweredInOrder(catalog, lines, replies, responses)
    {
      var userInput := lines[i];
      if IsExit(userInput) {
        break;
      }
      var assistantResponse := CreateAssistant(catalog, userInput, replies[i]);
      AnswerAppended(catalog, lines, replies, responses, assistantResponse);
      responses := responses + [assistantResponse];
      i := i + 1;
    }
  }
}
