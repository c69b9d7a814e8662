/**
 * The card record as the card-detail query caches it: a card, its ordered list of
 * assigned members, and its parent list -> board -> workspace, whose `members` are
 * the workspace roster that the toggle looks members up in.
 *
 * Only the fields the toggle reads carry meaning; `email`, `title` and the parent
 * identifiers stand for the rest of each record, which the toggle copies untouched.
 */
module Cards {

  datatype Member = Member(publicId: string, email: string)

  datatype Workspace = Workspace(publicId: string, members: seq<Member>)

  datatype Board = Board(publicId: string, workspace: Workspace)

  datatype CardList = CardList(publicId: string, board: Board)

  datatype Card = Card(publicId: string, title: string, members: seq<Member>, list: CardList)

  /** The workspace roster reachable from a card: `card.list.board.workspace.members`. */
  function Roster(card: Card): seq<Member> {
    card.list.board.workspace.members
  }
}
