/**
 * The static project table of src/data/projectsData.ts, built once and never
 * changed at run time, and the facts about it that the pages rely on.
 */
module ProjectTable {
  import opened Wrappers
  import opened Strings
  import opened ProjectModel

  /** The table, in source order. */
  const ProjectsData: seq<Project> :=
    [MyZone, ImageGallery, ChatApp, BugWorld, BinaryTree, NumberGuess]

  const MyZone: Project := Project(
    id := "proj-myzone",
    name := "My Zone",
    description := MyZoneDescription,
    detail := Some(MyZoneDetail),
    pictureUrl := Some("/images/myzone.jpg"),
    gitHubUrl := Some("https://github.com/brady-world2024/myZonePrivate"),
    url := Some("http://3.88.10.109/"))

  const ImageGallery: Project := Project(
    id := "proj-imagegallery",
    name := "Image Gallery",
    description := ImageGalleryDescription,
    detail := Some(ImageGalleryDetail),
    pictureUrl := Some("/images/imagegallery.jpg"),
    gitHubUrl := Some("https://github.com/brady-world2024/ImageGallery"),
    url := Some("/images/imagegallery.jpg"))

  const ChatApp: Project := Project(
    id := "proj-chatapp",
    name := "Encryption-Based Messaging",
    description := ChatAppDescription,
    detail := Some(ChatAppDetail),
    pictureUrl := Some("/images/chatapp.jpg"),
    gitHubUrl := Some("https://github.com/brady-world2024/ChatApp"),
    url := Some("/images/sorry.jpg"))

  const BugWorld: Project := Project(
    id := "proj-bugworld",
    name := "Bug World Simulation",
    description := BugWorldDescription,
    detail := Some(BugWorldDetail),
    pictureUrl := Some("/images/bugworld.jpg"),
    gitHubUrl := Some("https://github.com/brady-world2024/AnimatingBugWorld"),
    url := Some("/images/sorry.jpg"))

  const BinaryTree: Project := Project(
    id := "proj-binarytree",
    name := "Binary Tree Visualization",
    description := BinaryTreeDescription,
    detail := Some(BinaryTreeDetail),
    pictureUrl := Some("/images/binarytree.jpg"),
    gitHubUrl := Some("https://github.com/brady-world2024/BinaryTree"),
    url := Some("/images/sorry.jpg"))

  const NumberGuess: Project := Project(
    id := "proj-numberguess",
    name := "Number Guessing Game",
    description := NumberGuessDescription,
    detail := Some(NumberGuessDetail),
    pictureUrl := Some("/images/numberguessing.jpg"),
    gitHubUrl := Some("https://github.com/brady-world2024/NumberGuessingGame"),
    url := Some("/images/sorry.jpg"))

  /** The facts the pages rely on for one record. */
  predicate WellFormedRecord(p: Project) {
    && HasPrefix(p.id, "proj-")
    && Excludes(p.id, '/')
    && Excludes(p.name, '\n')
    && Truthy(p.pictureUrl)
    && HasPrefix(p.pictureUrl.value, "/images/")
    && Truthy(p.gitHubUrl)
    && p.detail.Some?
  }

  /** The facts the pages rely on for a whole table: distinct ids and well-formed records. */
  predicate WellFormedTable(ps: seq<Project>) {
    && DistinctIds(ps)
    && forall i | 0 <= i < |ps| :: WellFormedRecord(ps[i])
  }

  // One lemma per record keeps each proof about string literals small.
  lemma MyZoneWellFormed() ensures WellFormedRecord(MyZone) { }
  lemma ImageGalleryWellFormed() ensures WellFormedRecord(ImageGallery) { assert ImageGallery.id == "proj-" + "imagegallery"; }
  lemma ChatAppWellFormed() ensures WellFormedRecord(ChatApp) { }
  lemma BugWorldWellFormed() ensures WellFormedRecord(BugWorld) { }
  lemma BinaryTreeWellFormed() ensures WellFormedRecord(BinaryTree) { }
  lemma NumberGuessWellFormed() ensures WellFormedRecord(NumberGuess) { }

  /** Each record of the table, taken on its own, is well formed. */
  lemma ProjectsDataRecordWellFormed(i: nat)
    requires i < |ProjectsData|
    ensures WellFormedRecord(ProjectsData[i])
  {
    MyZoneWellFormed();
    ImageGalleryWellFormed();
    ChatAppWellFormed();
    BugWorldWellFormed();
    BinaryTreeWellFormed();
    NumberGuessWellFormed();
  }

  /**
   * The table holds six records with pairwise distinct ids, each id beginning
   * with "proj-" and free of '/', each name on a single line, and every record
   * setting its picture (under "/images/"), its GitHub link and its detail
   * text.
   */
  lemma ProjectsDataWellFormed()
    ensures |ProjectsData| == 6
    ensures WellFormedTable(ProjectsData)
  {
    ProjectsDataDistinctIds();
    forall i | 0 <= i < |ProjectsData| ensures WellFormedRecord(ProjectsData[i]) {
      ProjectsDataRecordWellFormed(i);
    }
  }

  /** No two records share a name. */
  lemma ProjectsDataDistinctNames()
    ensures forall i, j | 0 <= i < |ProjectsData| && 0 <= j < |ProjectsData| && i != j ::
      ProjectsData[i].name != ProjectsData[j].name
  {
  }

  /** No two records share an id (the six ids even differ in length). */
  lemma ProjectsDataDistinctIds()
    ensures DistinctIds(ProjectsData)
  {
  }

  /** Long texts of the table, one constant per field. */

  const MyZoneDescription: string :=
    "'My Zone' is a website that offers a dynamic and interactive platform with a wide range of features aimed at providing an engaging user experience. The website is divided into 14 distinct sections, each catering to specific content categories. After registering, users can post content in their respective sections, including text, images, and more."

  const MyZoneDetail: string :=
    "'My Zone' is a website that offers a dynamic and interactive platform with a wide range of features aimed at providing an engaging user experience. The website is divided into 14 distinct sections, each catering to specific content categories. After registering, users can post content in their respective sections, including text, images, and more.\n"
    + "\n"
    + "Key features include:\n"
    + "\n"
    + "User Interactions: Registered users can engage with posts by liking, commenting, and sharing their thoughts. This promotes a community-driven experience, allowing users to actively contribute and interact with content.\n"
    + "\n"
    + "Search Functionality: Users can search for posts based on their interests, making it easy to find relevant content across different sections.\n"
    + "\n"
    + "Content Management: The website also offers robust administrative features. The admin panel allows for managing the website's data, including the addition and removal of banners on the homepage, as well as moderating posts and comments.\n"
    + "\n"
    + "User Management: Administrators can manage user accounts, ensuring a smooth and secure operation of the platform.\n"
    + "\n"
    + "Data Analytics: The backend also includes a data analytics feature, providing insights into website traffic, user activity, and content engagement, which helps improve the user experience and optimize site performance.\n"
    + "\n"
    + "Overall, 'My Zone' provides a well-rounded platform with extensive functionality for both users and administrators, enhancing both the content-sharing experience and the site management capabilities."

  const ImageGalleryDescription: string :=
    "'Image Gallery' is a dynamic platform that allows users to share their photographs, AI-generated images, and artwork. With a user-friendly interface and engaging features, it provides a comprehensive space for creative expression."

  const ImageGalleryDetail: string :=
    "'Image Gallery' is a dynamic platform that allows users to share their photographs, AI-generated images, and artwork. With a user-friendly interface and engaging features, it provides a comprehensive space for creative expression.\n"
    + "Key features include:\n"
    + "User Registration and Login: Users can register and log in to gain access to personalized features, including managing their uploaded content and personal homepage.\n"
    + "Sectioned Content: The website is organized into three distinct sections: Photos, AI Creations, and Paintings, allowing users to categorize their artwork based on type.\n"
    + "Browse Without Logging In: Users who are not logged in can still browse through others' works, fostering a community-driven environment.\n"
    + "Personal Homepage: Upon logging in, users gain access to their personal homepage where they can view and manage all their previously uploaded images.\n"
    + "Upload and Manage Images: Logged-in users can easily upload new images, select the appropriate section for each piece, and delete old images from their collection.\n"
    + "Dynamic Image Display: Each image is showcased with a sleek and dynamic loading effect, enhancing the visual appeal and creating a more engaging browsing experience.\n"
    + "This platform provides users with the tools to manage, showcase, and share their artwork with others, all while enjoying an aesthetically pleasing and user-friendly experience.'"

  const ChatAppDescription: string :=
    "This software provides secure communication with advanced encryption methods, offering users a reliable platform for both private and group messaging."

  const ChatAppDetail: string :=
    "This software provides secure communication with advanced encryption methods, offering users a reliable platform for both private and group messaging.\n"
    + "Key features include:\n"
    + "Server Selection: Users can choose the server's IP address from a list of deployed servers located at different IP addresses, offering flexibility in connection options.\n"
    + "Customizable Ports: Users can select from a range of open ports for communication, ensuring convenience and adaptability in the connection process.\n"
    + "Multiple Encryption Methods: The software offers three encryption options\U{2014}Caesar Cipher, DES Encryption, and AES Encryption\U{2014}allowing users to select the appropriate level of security for their communication needs.\n"
    + "Private Messaging: Secure one-on-one messaging, ensuring all personal conversations are protected with strong encryption protocols.\n"
    + "Group Chat Support: In addition to private messaging, the software enables group chats, allowing users to securely communicate with multiple participants in real-time.\n"
    + "Real-Time Communication: The software ensures that all communication, whether private or in a group, remains confidential and is protected from unauthorized access.\n"
    + "This encryption-based messaging software provides users with the freedom to customize their connection settings, while ensuring that all communications are securely encrypted and protected from potential threats."

  const BugWorldDescription: string :=
    "Bug World is an immersive simulation that recreates a dynamic ecosystem where plant and insect life evolve in a balanced environment. The simulation is divided into three main categories: herbivorous insects, carnivorous insects, and plants."

  const BugWorldDetail: string :=
    "Bug World is an immersive simulation that recreates a dynamic ecosystem where plant and insect life evolve in a balanced environment. The simulation is divided into three main categories: herbivorous insects, carnivorous insects, and plants.\n"
    + "In the world of Bug World:\n"
    + "Plants grow and develop over time, becoming larger as they age.\n"
    + "Herbivorous insects feed on plants, exploring their environment to find the nearest food source.\n"
    + "Carnivorous insects hunt herbivorous insects, providing a natural predator-prey dynamic.\n"
    + "Each type of insect has its own food-searching range, and as they consume food, they grow and increase in size. However, if insects or plants are eaten by others, they shrink until they eventually die.\n"
    + "Key features of the simulation include:\n"
    + "Time control: Users can speed up or slow down the passage of time, allowing them to observe the growth and interaction between plants and insects at different speeds.\n"
    + "Atmospheric music: The software features ambient music that enhances the immersive experience, making users feel as though they are right there in the world of Bug World.\n"
    + "With these features, Bug World offers a fascinating and interactive way to explore the complex relationships between plants and insects in a self-sustaining ecosystem."

  const BinaryTreeDescription: string :=
    "This software provides an intuitive and interactive way to visualize and understand binary tree structures by using names as the key data. The software takes a list of names from a given document and organizes them in a binary tree, enabling a clear, graphical representation of how binary trees work."

  const BinaryTreeDetail: string :=
    "This software provides an intuitive and interactive way to visualize and understand binary tree structures by using names as the key data. The software takes a list of names from a given document and organizes them in a binary tree, enabling a clear, graphical representation of how binary trees work.\n"
    + "Key features include:\n"
    + "Name Insertion: Users can add names to the binary tree, and the names will be automatically sorted in the correct position according to binary tree properties.\n"
    + "Name Search: The software provides a fast search feature, allowing users to quickly find specific names within the tree.\n"
    + "Balance Binary Tree: The program includes a balancing function to ensure the binary tree is optimized for performance, improving search and insertion operations.\n"
    + "Visualization: The software offers a graphical representation of the tree, helping users to better understand the organization and sorting of data in a binary tree structure.\n"
    + "This tool is ideal for those looking to understand binary trees in a visual and easy-to-understand manner, with functionalities designed to reinforce key binary tree concepts, such as insertion, search, and balancing. It serves as a valuable educational tool for both beginners and advanced learners of computer science."

  const NumberGuessDescription: string :=
    "This is a fun and engaging number guessing game where each round, the software randomly generates a secret number within a range from 1 to 100. The player\U{2019}s goal is to guess the number as quickly as possible."

  const NumberGuessDetail: string :=
    "This is a fun and engaging number guessing game where each round, the software randomly generates a secret number within a range from 1 to 100. The player\U{2019}s goal is to guess the number as quickly as possible.\n"
    + "Key features of include:\n"
    + "Random Number Generation: Each game round features a new randomly generated number between 1 and 100.\n"
    + "Feedback on Guesses: After each guess, the game provides feedback, telling the player if their guess was too high, too low, or correct.\n"
    + "Tracking Time and Attempts: The game records the time taken and the number of attempts made to guess the correct number, allowing players to challenge themselves for better results.\n"
    + "Relaxing Music: The game includes soothing background music, creating a light and enjoyable atmosphere for players.\n"
    + "This game is perfect for anyone looking for a fun, casual experience that also offers a bit of a challenge in guessing numbers. It\U{2019}s easy to play, but can keep you coming back to improve your time and guesses!"
}
