/**
 * The fixed records of `src/data/mockData.ts` that the table, the chat
 * panel and the card face read: the seated players, the opening chat
 * messages and the suit-symbol table.
 */
module MockData {

  import opened Optional

  /** The seat status domain (`PlayerSeat.tsx`, line 8). */
  datatype Status = Active | Waiting | Passed | SittingOut | Winner

  /** One seated player as the table holds it; `cards` is `null` for a player without hole cards. */
  datatype Player = Player(
    id: string,
    username: string,
    avatar: string,
    score: int,
    seat: nat,
    status: Status,
    cards: Option<seq<string>>,
    isDealer: bool)

  /** The roster the table opens with: ChipMaster starts out `passed`. */
  const MockPlayers: seq<Player> := [
    Player("1", "NeonKing", "👑", 250, 0, Active, Some(["As", "Kh"]), true),
    Player("2", "PokerPro", "🎯", 185, 2, Active, Some(["Qd", "Jc"]), false),
    Player("3", "ChipMaster", "💎", 320, 4, Passed, None, false),
    Player("4", "BluffKing", "🃏", 150, 6, Active, Some(["9s", "9h"]), false)
  ]

  datatype ChatMessage = ChatMessage(id: string, username: string, message: string, timestamp: string)

  /** The four messages the chat panel opens with. */
  const MockChatMessages: seq<ChatMessage> := [
    ChatMessage("1", "NeonKing", "Good luck everyone!", "10:30"),
    ChatMessage("2", "PokerPro", "Thanks! May the best hand win.", "10:31"),
    ChatMessage("3", "ChipMaster", "All in!", "10:32"),
    ChatMessage("4", "BluffKing", "This is intense!", "10:33")
  ]

  /** Suit letter to the symbol drawn on a card face. */
  const CardSuits: map<string, string> := map["s" := "♠", "h" := "♥", "d" := "♦", "c" := "♣"]
}
