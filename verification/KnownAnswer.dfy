/** The known answer: the hash of the empty message, worked out round by round.  It pins down every step mapping, every
    rotation and every constant, whichever side of the kernel's equality with the specification they are on. */
module KnownAnswer {
  import opened Words
  import opened Keccak
  import opened KeccakKernel
  import opened Planes
  import opened SearchKernel

  // ---------- the state before each round and after the last one

  const STATE0: Cube := Cube(
    Plane(0x0000000000000001, 0x0000000000000000, 0x0000000000000000, 0x0000000000000000, 0x0000000000000000),
    Plane(0x0000000000000000, 0x0000000000000000, 0x0000000000000000, 0x0000000000000000, 0x0000000000000000),
    Plane(0x0000000000000000, 0x0000000000000000, 0x0000000000000000, 0x0000000000000000, 0x0000000000000000),
    Plane(0x0000000000000000, 0x8000000000000000, 0x0000000000000000, 0x0000000000000000, 0x0000000000000000),
    Plane(0x0000000000000000, 0x0000000000000000, 0x0000000000000000, 0x0000000000000000, 0x0000000000000000))

  const STATE1: Cube := Cube(
    Plane(0x0000040000000001, 0x0000100000000000, 0x0000040000008000, 0x0000000000000000, 0x0000100000008000),
    Plane(0x0000000000000008, 0x0000300000200000, 0x1000000000000008, 0x0000300000000000, 0x1000000000200000),
    Plane(0x0000000000000002, 0x0000000000000220, 0x0000000000040000, 0x0000000000000202, 0x0000000000040020),
    Plane(0x0000000010000400, 0x0000001000004000, 0x0000000000000400, 0x0000000010004000, 0x0000001000000000),
    Plane(0x2000010000000000, 0x0000020000000000, 0x0000010000000004, 0x2000020000000000, 0x0000000000000004))

  const STATE2: Cube := Cube(
    Plane(0x36305230006404e6, 0x10c339b88b760106, 0x2c31260010309901, 0xb402598888e60461, 0x8ec12c0011141902),
    Plane(0x000479c441202162, 0xa9834204a1850002, 0x8002a96207243bf4, 0x2986b00442e20013, 0x88030ae2a44318c5),
    Plane(0x40002504a452186c, 0x00298438083b9f34, 0x14c09a8c9df0c04b, 0x00382e3020480c46, 0x54d1819819b14311),
    Plane(0x01bc065087388d40, 0x254056d141076300, 0x442c006724388184, 0x22881640e2122040, 0x425040a620050f84),
    Plane(0x10250ab408141191, 0xea18c00a90a046e2, 0x02252e3040181054, 0xd800c8a408a061a1, 0x2218340ad024160e))

  const STATE3: Cube := Cube(
    Plane(0x7308cf19f675a28c, 0x24c8413593a231e3, 0x9f099d478b237977, 0x2ab7f95c8ac310b3, 0x8e28a10fc66873fc),
    Plane(0x5d32e773b2b55c7d, 0x7d33980232045c83, 0xe28a2b70205085a5, 0xcc2cd7e324d2468e, 0xb74a863bf2536585),
    Plane(0x5d369d3c79ba85a5, 0x22ed7119e3c4e384, 0x4bcc0c935097f374, 0x2e5dc77a860ca66f, 0x2dbeea71f1e35a7a),
    Plane(0xc669dec7291539ab, 0x9f80d8ac374bb6cd, 0x91c77afe0262c26d, 0x2de8dbd4dcde6fb1, 0x46c24c7c739d6870),
    Plane(0x783e0513afeccc1a, 0xa29ac517088ad63a, 0x1d20df7ecb8e7067, 0x655b7bf46aae9a3c, 0x43c735309c4e1439))

  const STATE4: Cube := Cube(
    Plane(0x7eec1012f66baee6, 0xe6d2e4458cac18a9, 0x5096c520535f288f, 0x5adf5824750696d5, 0x2867f1088b8fd658),
    Plane(0xaccfdcb0bd9bcea8, 0x05fd9797e9164980, 0x44a2cbf947e16cee, 0xaceb2429db2cd55d, 0x6a48fc23515ee2a8),
    Plane(0xb94607983d4705bf, 0x1b1bd3901a486275, 0xf1c146f6afe51ec3, 0x10de9de4ef506c58, 0x6ac0b280c3c395bb),
    Plane(0xf97c5fbe14ff3bc6, 0x19cb20108c838c96, 0x982b0cf11854f22c, 0xd75032de9743a238, 0x027f400cc90c3447),
    Plane(0xf2facacde688afb6, 0x682013742aa1e73d, 0x0ce5665bb2df4e84, 0x279226377095e8d6, 0x634646675441ce51))

  const STATE5: Cube := Cube(
    Plane(0x2ca78d1fb0a64dc7, 0x6450dd6a88cd74e3, 0x6cce78e37be7ccf9, 0x5f5144ba9082b898, 0x50bd6ebb1a526d89),
    Plane(0x06b68cee4f00b096, 0x1d0fd475cb63df7b, 0xb871c02c5547e2ee, 0x54e2ff6b9c6e656e, 0xac2400ff8481b1e8),
    Plane(0x484fb645561a4af9, 0x5b2d34b2fa6df33c, 0x85ee3ce0c5e41191, 0x19852566623a33e5, 0x5623446d9c77334d),
    Plane(0xc0041cd3a2e7cde2, 0x268a41a57a642f48, 0x7f274ee5a657e34e, 0x23cb54ee34c79a96, 0x4087455b7b69c9a0),
    Plane(0x3c4eee45f0e96635, 0xf60516babe614702, 0xdd5dc346837e8117, 0x14a0e647eb74e246, 0x6875306431036be1))

  const STATE6: Cube := Cube(
    Plane(0x03714ec483b77561, 0x960390566a2c6ac8, 0x4c6550ed49562e97, 0x23dd64e6b0daaf2b, 0x91056dd06977d6c0),
    Plane(0xb956f647c80e8d70, 0xea5c2241fd7b94ba, 0x134bb59f1bcf0247, 0x91452a19caf34f91, 0xaeab563906cf2385),
    Plane(0xb866018a9e0bba63, 0x7f3ca8c6ba9c61d8, 0x8c679969c1cc1e85, 0xdac3103fbd2d1c5f, 0x9545a6fd2aa12e71),
    Plane(0x3b60ba0daf5dd647, 0xc61c9aef7a406aff, 0xfd48252495f77488, 0x3e35d8a1775921f2, 0x86ea5b33f7b4acad),
    Plane(0x7f2c4298932aa448, 0x75d1a9ec21ed8fd3, 0x0b53baa7ab739a65, 0x0fe0f5d774357647, 0x394cae2300e6c89b))

  const STATE7: Cube := Cube(
    Plane(0xff647574fd808ee5, 0xf7d9bdef0b0ecaf5, 0xc83d187faab6f1f9, 0x0657b3d4b4f63bf5, 0x97300fca0282bba7),
    Plane(0x770101d976c15573, 0xf7271ade017febfa, 0x42b9f7d70c5705ae, 0xcaff990ef3c91833, 0x697c3c858a8e3440),
    Plane(0x75f63ab33135c188, 0x1c5de0b94e4e9954, 0xdca8d56a6eb23ee3, 0x6fbfb5a056e6c459, 0xeeebf6bff71634b1),
    Plane(0xebd520e879a78d6c, 0x4dd8667cd028f448, 0xdab9a465a90b554e, 0x753935893c57f357, 0xfb087fd2c2e521c5),
    Plane(0x72c54eb4855261a4, 0x82c7569247019817, 0xe136c0a064873906, 0xa729d20e42d31b67, 0x61eebd0e0e2d812b))

  const STATE8: Cube := Cube(
    Plane(0xb0fd17f53ae92e45, 0x1d4f440a212924c0, 0xb6b9f5785215876b, 0xa8ebc10d7b748a08, 0xe45dbb16d8ca36fb),
    Plane(0x2d50c83785b5ee32, 0x4646c94ffd3915f0, 0xd46e9a152672fd83, 0xec848c63bd941392, 0xd8968dcfed2d6f8b),
    Plane(0xac196b6d0c6ce375, 0xc3dad3c06d317f1c, 0x68797a3ce839047b, 0x096faa603fe34647, 0xdf9252373ac663fa),
    Plane(0xdf1772c56178e1b5, 0xa3e26e77ac8c9687, 0x0b71dc8dd0a96284, 0x847c301eee5374b0, 0xca3604a2d2a6aa88),
    Plane(0xde41f7b3bce1aca2, 0xcf4d4de020d8c994, 0xe069595b550bef2e, 0xba1d7f0d189010d0, 0xf513233c28f4dda0))

  const STATE9: Cube := Cube(
    Plane(0xe6793e2397506542, 0x1ddb637d149a8a06, 0x5b35a54e14bcffff, 0xcb5aa90388eba654, 0xa3a4bfc5a60473eb),
    Plane(0x386aee2b513a1936, 0x6513d1f1219cb90f, 0xb8ec554e5f878440, 0x03580a2caed41269, 0x385bdf5eee3b532d),
    Plane(0xd41099a6aef35b05, 0x262bc24121ebed31, 0x258932bf7f92e37d, 0x57cf2d18c4cd4f90, 0x1bf18ba20cfb0ba5),
    Plane(0x9d56828b652f2b44, 0x8a1abfdf9d671216, 0xd32d5e80ee56ead9, 0x38c279ac8674cd62, 0x8e6b4f19f3ab9e48),
    Plane(0xa101a4b68570f00b, 0x3646245c26b464b4, 0x1a0312ee4becc874, 0xcb1c53d72f8f5bde, 0xa5533594f4a600fc))

  const STATE10: Cube := Cube(
    Plane(0xacb0712a8e67c328, 0xd12ee2d8ba7828bd, 0xe583c9f0adab0b75, 0x0ab20e819eccbaba, 0x40b16f59857c716d),
    Plane(0x39620378d318e17e, 0x424b4bfe05838eca, 0xd6cfd65c9c7dee34, 0xfaba550e389966f2, 0xc60a3ea32a5b1959),
    Plane(0x28643bbf7cf604cd, 0x0d2dc698a5ffbaae, 0x4dee9a2cf0b9a120, 0xb0b47222035b2542, 0x1b67e710d1ae8703),
    Plane(0x75e4051c3c9dba3f, 0x3cc5f4d4261a20e4, 0x0ad1c26e0b9e4f3a, 0x9fcf6bbd5d3004ff, 0x9699d7bf2c1b0f8a),
    Plane(0xf32901aa2e4467db, 0xd4bd2c31d05f2a31, 0x77ef741da52cd5ab, 0xb7dd4de235ab46f0, 0x7f397de3f1cfb970))

  const STATE11: Cube := Cube(
    Plane(0x26a5233f6438b6dc, 0xace3df49a43e3fd6, 0xc4086346dc94dc2e, 0x20ea8bec3236b3c9, 0xf229827eff26d05a),
    Plane(0xfaf8f47d3f5f6884, 0x927d36f588a9b430, 0x11da5674194b4e64, 0x6da5e479dfd8191e, 0xbe1079143a68539f),
    Plane(0xcadbd0cabd32fc24, 0xe9dd3bbdeaa3dd94, 0x76f97cf8108e2ca0, 0xd1107b058a44218c, 0xeea97e5c08f8ac49),
    Plane(0xdaf2d4e0f2f78f95, 0x883160e013f90580, 0xb1a414213bf04ce4, 0xd44a7eda957d550e, 0x9e55b35d791cdc21),
    Plane(0xd1dec853a1015ae4, 0x4c926ef6a84eef87, 0x6f0576229fa8aa0c, 0xd59c1598f6ce72ca, 0xaff83d1cbad917ba))

  const STATE12: Cube := Cube(
    Plane(0xe215d0d659163823, 0x8683974493a469b1, 0xf64f37f10bf45b28, 0xfdee927ea471df68, 0x500c7269f3ee0799),
    Plane(0x45d78ea405a3a964, 0x03557220b429a4d3, 0x3195deb85a7107ab, 0x3d502ddda7398a8d, 0xc2febbf32d430d7b),
    Plane(0x917923e1a60bf1be, 0xc22dd9cf3e60efbe, 0x21ce54a25b74d00d, 0x9868de16a584c50e, 0xa62d01cd00859e89),
    Plane(0xd1c3d4f6f08da26f, 0xb0be6294f4d17ace, 0x69da1afce162547d, 0x03c8a7b614f3cab7, 0xc5b26f28bfdb70e2),
    Plane(0x795ad43d7a4beaea, 0x9d9bba34ab9d1948, 0x7be76f07d92b7c83, 0x1528c0dc1cce7e4e, 0x2831a3bf7aeeb33e))

  const STATE13: Cube := Cube(
    Plane(0x5c7f04a9eb415daa, 0x4c44e75259f5833e, 0xadff9fb8251de691, 0xecc21e383b00020c, 0xd7f4ee69f1415482),
    Plane(0x6e0e74df7917d016, 0x7ace3467e85790d7, 0x5c67f9bf8aa12768, 0x494f75d8f24f6d3b, 0xa06ab0f6f845067f),
    Plane(0xe5e6f8f52e665057, 0x095c81719483bcf1, 0x2e6ebd9c061c2477, 0x40d303d8da5e09a6, 0x6ba6b350bf2473cc),
    Plane(0x75ff6312b50b7ca0, 0x36e3e7649be5660d, 0x70815cace6248e90, 0x5d083f8a3f827fb4, 0x5b533d654e7c4f7c),
    Plane(0x827f66994d03d4b2, 0x6db7286666d1dd08, 0x4974356a95bf7635, 0xa4f8fb3b401c504d, 0xe6a9dd54d881ee17))

  const STATE14: Cube := Cube(
    Plane(0x94b8714a79b4f579, 0xdd97992da9cc5043, 0xa7969c8e19ee2e30, 0xe17cb08c2dcb80b2, 0x93b4c73a176a6e8b),
    Plane(0x930635ec94145a75, 0x62c1c8e04f0fe2f1, 0x6b8f7814668bd3b6, 0xfd3c7a8645daac15, 0x6664b42598dd1a9f),
    Plane(0xd02899cb42351935, 0x6e073a60688d2f43, 0xf7a3bf7901c8a1b4, 0xd28bf4a883d9f707, 0x69ac15f15bc3caa1),
    Plane(0xa10dff23d712efd6, 0xd25bf564ecb6bae4, 0xa2a205d32d1c77d5, 0x4cd0f337c02eb42d, 0xcd037f12b25f8c45),
    Plane(0x91009dea8a079812, 0x42f7644e5c9ce5fa, 0xebfeac5f99d4ec3d, 0xc1a9909371a9524e, 0x446967526ece2d32))

  const STATE15: Cube := Cube(
    Plane(0x1251936a8b5eeba5, 0x4aca96297139b192, 0x8182edc9f77fa479, 0x8293faa3877ace1b, 0x59cd706154e322ab),
    Plane(0xef6ec5cf7b1b7ab9, 0xee37513a4f7d4e0c, 0x3700d6c3b2e813ea, 0xc4d7b805fc59d00e, 0x852cc5aa82014eaa),
    Plane(0x8db34ca93c0a3c01, 0xc5c336fa1c78cbeb, 0x6f924cbebb1c8143, 0x20dd590c86345d40, 0x1927dbfe08689c5e),
    Plane(0xe9414eae99fd861a, 0xa1a4155038e1f6c2, 0x55954c3799242d13, 0x0fec57f37f0fbb1c, 0x1215638fe6a8666e),
    Plane(0x1a6bf3c160d5e086, 0x1d936b379aaf3aae, 0x44be2462bf8d77fb, 0x24a8976ec4680654, 0x2714f4ee7154b4e5))

  const STATE16: Cube := Cube(
    Plane(0xc0a57522c1efe859, 0xe69b77ec2c9da6a6, 0x742a4601a5f0e5dc, 0x17c698335125eb15, 0xbd1d5da6cb6e5fc4),
    Plane(0x96de5a792e31754c, 0x4138ebae6a7cfb4d, 0x3b7cd6b3ea8ebf75, 0xf03c1a06392e26bc, 0x01612232072f44fa),
    Plane(0x31342913c82745e4, 0x68ddc2ed8bc8d24c, 0xd99975f96a92d1cc, 0x25e266c9373f7458, 0x1aab65f4df45f0e4),
    Plane(0xc5f388588cdaa834, 0x98c80570cb3a38e0, 0x0bbd7e454c66c974, 0xb82928de1c884093, 0xed0519d874aeb66c),
    Plane(0x91c4350b275f2c14, 0x5bf7eaec860b83dc, 0x4afca4318f8727ca, 0x5c69ca452b9ac7a6, 0x773d4efcfe30e690))

  const STATE17: Cube := Cube(
    Plane(0x74cd1a0b5c45bb1d, 0x2fdbbfd5e26e6c80, 0x3664fd7ade3d2112, 0x4d596e0a2082fd39, 0x0da9866f1ad50d45),
    Plane(0xd081df0aafb1c0f8, 0x3317bf0929c61cce, 0x8ac112aa8f94d330, 0xcdf09c15b803936b, 0x0767832d8bbe71de),
    Plane(0xe97b6951d0f40780, 0xe37353aed69d93b7, 0xbf467d1c1715b186, 0x39348c0471d52bad, 0x6aa26979de1b4ebe),
    Plane(0x31d984e187fd0b3f, 0x787a7dda6b04518f, 0xf43c16480ad8a982, 0xe5d188994432a48d, 0x79d04865dbfcf654),
    Plane(0x85263fdf3c61fb76, 0xb5eb3e9de6322f32, 0xd3b3770d01bad296, 0x21c6091f1b07df3a, 0x0ec5be23d9a252e3))

  const STATE18: Cube := Cube(
    Plane(0x076a338eb96c92d7, 0x33484c2467da3a2f, 0xa00a123b70909768, 0xf9725637037dfec9, 0xb3c8df9ed9afe09f),
    Plane(0x4f560e9256792297, 0x23d8af656de816d5, 0x90b7983de0e67ebc, 0x09b875a7f1e4c593, 0x63d1d365572ff328),
    Plane(0x3cd41b33e0be651f, 0xfe2e681c51dcb871, 0xfa68ec5d2b44ce9e, 0xe209bf0e26dc6666, 0xd50e252d48f3400e),
    Plane(0xfee5680e61a436b8, 0x5da6fe223a46434e, 0x88874b94bd7f6d01, 0xac675b1c243a04b2, 0xaf29dfee768ec58e),
    Plane(0x3fc384cf44f72c9d, 0x77a9bfa813162312, 0xb31566f0585e1c84, 0x055a8e9df0c9dfd4, 0x53cb08a7274b89ba))

  const STATE19: Cube := Cube(
    Plane(0xef48b8bfeb2744bb, 0x654b0fed0f6f068a, 0xada6f64b2da58246, 0xe16ee8916777dd68, 0x351a1bc3205d7be8),
    Plane(0x7733a961dc396ec9, 0xfe4447c6fc297f31, 0xa2198697b28d31e6, 0x3315496c0eda1790, 0x484b014d0533adbc),
    Plane(0xc81f6372c288f986, 0xbcb01c04457d96e5, 0xa95796cf47e15612, 0x0a030c2b49dda1ff, 0x8958ccf7679c3b5f),
    Plane(0x5cb577cd8075589f, 0x4a018f11bc97d772, 0xb8d323349e6a70b7, 0xe5dee69748add5ed, 0x030ffe2ae183b496),
    Plane(0x5cf98236a4ec69ca, 0x2604af7d93c245f6, 0xda0ad860a7ddf6d6, 0xdbd1670866d6a624, 0xa0a384a3442103c8))

  const STATE20: Cube := Cube(
    Plane(0xe7c975d8aefbf550, 0xa38f3460ada0ee7d, 0xe143b97d38d0df35, 0x40246aa05abb10ce, 0xe9b3782db6913304),
    Plane(0x30cbb8a9a0834beb, 0xa2b410364559d216, 0x67d074beb826412a, 0xca4e92687ef87d6d, 0x219bdcc027541342),
    Plane(0x7287620a39b8d589, 0x727a598d6e76600d, 0x0acd076f2c449233, 0x4bdeec258e791d5d, 0x186d5406e4e958e3),
    Plane(0x4ce14c632358ed5a, 0x9e2c7e0a7a1ec320, 0xb28753789ace8da3, 0xa7b0c9991fe8fe4b, 0xceac19abf26f1851),
    Plane(0xcaeffec7b0507b05, 0x472ca39ea510f66a, 0xcc7b6b61bff78ba5, 0xf1764918625504ab, 0xcd384b9645c503a3))

  const STATE21: Cube := Cube(
    Plane(0xe4d287a01f080409, 0xf3b08fc3bf083f01, 0x7e680663c87e4f86, 0x90a8ece65af85627, 0x2a3116b3fc59ec77),
    Plane(0x0be7cfd4f0d27dd3, 0x30789d2a287bc677, 0x26b4f670e8cb0279, 0x01230a9c408798b1, 0xb903ec5ce1023cf2),
    Plane(0xe8836c0824ccbe8c, 0x5d8d0a5fe34f0ff0, 0x490cfab0b0389c56, 0x4036e0c46db89d14, 0x67030540a22e3684),
    Plane(0x33c47b3a83eeee7d, 0x3d0cbe5b21cca71c, 0xd084a6b8a202161a, 0x3cb73e2079d93726, 0x2e9ff3bf787fd2c8),
    Plane(0x12e9dc1ef75368ac, 0x74670f81db392bd8, 0x789557cc0cddc3f7, 0xa0c829c5d7dbd624, 0xe38f4f2843106a1a))

  const STATE22: Cube := Cube(
    Plane(0x67a6b668b7823e97, 0x6836c186c6896c37, 0x5228a82d35ea443d, 0x1147f1f0d89e6089, 0x9e61b976def8787e),
    Plane(0x425268b17d929984, 0xbb647912c69e8767, 0x7dfe5dcd8c02e555, 0x7d8a497e88d5bc58, 0x1fa3ea82647afdfd),
    Plane(0x0d716262751ecd3f, 0xaddf2b6362a74ade, 0xd1ae1668ee1f7b6b, 0x22e411de1ce7ae26, 0xb573b3fa09ab1497),
    Plane(0x8a84d26fc954382a, 0x97ac3379cd19e543, 0x95b0a4d5625a494a, 0x1e25db0b8cba4e17, 0xd342634463487e3b),
    Plane(0x5ab2266e5f4f1133, 0x29ed02739defd2a4, 0x5ff62da7fb015c4a, 0xc488556b6dd3a215, 0x24b8bdcde0e9ebd8))

  const STATE23: Cube := Cube(
    Plane(0xb776c454221536a0, 0x2cc562aab665c6ac, 0x96854ec3f757a478, 0xbaf0e8c55c739718, 0x8263456ba091515a),
    Plane(0x76626ac752f6f6aa, 0x4e6fb95a23376335, 0x6dd890fa0ac6380b, 0xe63e22ac7de0af2a, 0x9ecfc93f76589eec),
    Plane(0xa0b01b1261ab6a01, 0xae3d547551959057, 0x016e9bf1d538d80d, 0x2167900ea6e5a7be, 0x7a406941f60cf465),
    Plane(0xd3881a5ca182984d, 0xbd5f1e80592136c8, 0x9b8a935ba0ddf5b0, 0x242c1ecef1782e23, 0xf105204297c34be6),
    Plane(0xcefb15ec5f89b0ad, 0xda47883fe04394bd, 0x668c64884a0ec53f, 0xa8511c9cfc53e49b, 0xf48efcf3a69e3a4e))

  const STATE24: Cube := Cube(
    Plane(0x3c23f7860146d2c5, 0xc003c7dcb27d7e92, 0x3b2782ca53b600e5, 0x70a4855d04d8fa7b, 0x74a97cd82c9abb3d),
    Plane(0xcb9b1161ecb0a2b9, 0x1f2211c4c0f9ed5c, 0x820dc6175fa24161, 0x81babfbcab8046d2, 0xb1d551b7242b765b),
    Plane(0x3cf26d5eba2553e8, 0x3bce6a98fe5b7210, 0xba7d9fa73545d2a2, 0xfa0d3cd3b03b15bb, 0x3bfed7eb12c7ce09),
    Plane(0xeb829c854e19a949, 0x1b5d1a6545a611ff, 0x064146f400e16b72, 0xfe8734e16471ab9f, 0x9c3088bdeebb0936),
    Plane(0xdee8b8eca7b2acba, 0x163b62b71dcf4521, 0x6b571b9910726d91, 0xb7fa22cf622318be, 0xa3fe1af7779fafd7))

  // ---------- each round, computed

  lemma Round0()
    ensures RoundCube(STATE0, RC[0]) == STATE1
  {
  }

  lemma Round1()
    ensures RoundCube(STATE1, RC[1]) == STATE2
  {
  }

  lemma Round2()
    ensures RoundCube(STATE2, RC[2]) == STATE3
  {
  }

  lemma Round3()
    ensures RoundCube(STATE3, RC[3]) == STATE4
  {
  }

  lemma Round4()
    ensures RoundCube(STATE4, RC[4]) == STATE5
  {
  }

  lemma Round5()
    ensures RoundCube(STATE5, RC[5]) == STATE6
  {
  }

  lemma Round6()
    ensures RoundCube(STATE6, RC[6]) == STATE7
  {
  }

  lemma Round7()
    ensures RoundCube(STATE7, RC[7]) == STATE8
  {
  }

  lemma Round8()
    ensures RoundCube(STATE8, RC[8]) == STATE9
  {
  }

  lemma Round9()
    ensures RoundCube(STATE9, RC[9]) == STATE10
  {
  }

  lemma Round10()
    ensures RoundCube(STATE10, RC[10]) == STATE11
  {
  }

  lemma Round11()
    ensures RoundCube(STATE11, RC[11]) == STATE12
  {
  }

  lemma Round12()
    ensures RoundCube(STATE12, RC[12]) == STATE13
  {
  }

  lemma Round13()
    ensures RoundCube(STATE13, RC[13]) == STATE14
  {
  }

  lemma Round14()
    ensures RoundCube(STATE14, RC[14]) == STATE15
  {
  }

  lemma Round15()
    ensures RoundCube(STATE15, RC[15]) == STATE16
  {
  }

  lemma Round16()
    ensures RoundCube(STATE16, RC[16]) == STATE17
  {
  }

  lemma Round17()
    ensures RoundCube(STATE17, RC[17]) == STATE18
  {
  }

  lemma Round18()
    ensures RoundCube(STATE18, RC[18]) == STATE19
  {
  }

  lemma Round19()
    ensures RoundCube(STATE19, RC[19]) == STATE20
  {
  }

  lemma Round20()
    ensures RoundCube(STATE20, RC[20]) == STATE21
  {
  }

  lemma Round21()
    ensures RoundCube(STATE21, RC[21]) == STATE22
  {
  }

  lemma Round22()
    ensures RoundCube(STATE22, RC[22]) == STATE23
  {
  }

  lemma Round23()
    ensures RoundCube(STATE23, RC[23]) == STATE24
  {
  }

  function StateAt(n: nat): Cube
    requires n <= 24
  {
    if n == 0 then STATE0 else if n == 1 then STATE1
    else if n == 2 then STATE2 else if n == 3 then STATE3
    else if n == 4 then STATE4 else if n == 5 then STATE5
    else if n == 6 then STATE6 else if n == 7 then STATE7
    else if n == 8 then STATE8 else if n == 9 then STATE9
    else if n == 10 then STATE10 else if n == 11 then STATE11
    else if n == 12 then STATE12 else if n == 13 then STATE13
    else if n == 14 then STATE14 else if n == 15 then STATE15
    else if n == 16 then STATE16 else if n == 17 then STATE17
    else if n == 18 then STATE18 else if n == 19 then STATE19
    else if n == 20 then STATE20 else if n == 21 then STATE21
    else if n == 22 then STATE22 else if n == 23 then STATE23
    else STATE24
  }

  lemma RoundAt(n: nat)
    requires n < 24
    ensures RoundCube(StateAt(n), RC[n]) == StateAt(n + 1)
  {
    hide RoundCube, RC, STATE0, STATE1, STATE2, STATE3, STATE4, STATE5, STATE6, STATE7,
      STATE8, STATE9, STATE10, STATE11, STATE12, STATE13, STATE14, STATE15,
      STATE16, STATE17, STATE18, STATE19, STATE20, STATE21, STATE22, STATE23,
      STATE24;
    if n == 0 { Round0(); } else if n == 1 { Round1(); } else if n == 2 { Round2(); }
    else if n == 3 { Round3(); } else if n == 4 { Round4(); } else if n == 5 { Round5(); }
    else if n == 6 { Round6(); } else if n == 7 { Round7(); } else if n == 8 { Round8(); }
    else if n == 9 { Round9(); } else if n == 10 { Round10(); } else if n == 11 { Round11(); }
    else if n == 12 { Round12(); } else if n == 13 { Round13(); } else if n == 14 { Round14(); }
    else if n == 15 { Round15(); } else if n == 16 { Round16(); } else if n == 17 { Round17(); }
    else if n == 18 { Round18(); } else if n == 19 { Round19(); } else if n == 20 { Round20(); }
    else if n == 21 { Round21(); } else if n == 22 { Round22(); } else { Round23(); }
  }

  /** After n rounds the state is the n-th of the table. */
  lemma {:induction false} AfterRounds(n: nat)
    requires n <= 24
    ensures Rounds(Lanes(STATE0), Indices(n)) == Lanes(StateAt(n))
  {
    hide Lanes, RoundCube, Round, Rounds, Indices, RC, StateAt;
    if n == 0 {
      FirstState();
      NoRounds(Lanes(STATE0));
    } else {
      AfterRounds(n - 1);
      NextRound(Lanes(STATE0), n - 1);
      RoundOf(StateAt(n - 1), n - 1);
      RoundAt(n - 1);
    }
  }

  lemma FirstState()
    ensures StateAt(0) == STATE0 && StateAt(24) == STATE24
  {
  }

  lemma Permuted()
    ensures KeccakF(Lanes(STATE0)) == Lanes(STATE24)
  {
    hide Lanes, KeccakF, Rounds, Indices;
    AllRounds(Lanes(STATE0));
    AfterRounds(24);
    FirstState();
  }

  // ---------- the padded empty message and the digest

  lemma EmptyPadding()
    ensures Padding(0) == [0x01] + Zeros(134) + [0x80]
  {
    hide Zeros;
  }

  lemma PaddingBlockWord(k: nat)
    requires k < 17
    ensures Padding(0)[8 * k..8 * k + 8] == if k == 0 then [0x01, 0, 0, 0, 0, 0, 0, 0]
                                            else if k == 16 then [0, 0, 0, 0, 0, 0, 0, 0x80] else Zeros(8)
  {
    EmptyPadding();
    hide Padding;
  }

  lemma FirstStateLane(k: nat)
    requires k < 25
    ensures Lanes(STATE0)[k] == if k == 0 then PAD_FIRST else if k == 16 then PAD_LAST else PAD_ZERO
  {
  }

  lemma EmptyBlock()
    ensures |Padding(0)| == RATE && AbsorbBlock(ZERO, Padding(0)) == Lanes(STATE0)
  {
    EmptyPadding();
    MarkerLanes();
    var b := Padding(0);
    hide Padding, Zeros, BytesLane, Lanes, PAD_FIRST, PAD_LAST, PAD_ZERO, Xor;
    forall k | 0 <= k < 25 ensures AbsorbBlock(ZERO, b)[k] == Lanes(STATE0)[k] {
      XorZero(BlockLane(b, k));
      ZeroLane(k);
      FirstStateLane(k);
      if k < 17 { PaddingBlockWord(k); } else { NoLane(); }
    }
  }

  lemma ZeroLane(k: nat)
    requires k < 25
    ensures ZERO[k] == 0
  {
  }

  lemma NoLane()
    ensures PAD_ZERO == 0
  {
  }

  lemma FirstLane()
    ensures LaneBytes(0x3c23f7860146d2c5) == [0xc5, 0xd2, 0x46, 0x01, 0x86, 0xf7, 0x23, 0x3c]
  {
  }

  lemma SecondLane()
    ensures LaneBytes(0xc003c7dcb27d7e92) == [0x92, 0x7e, 0x7d, 0xb2, 0xdc, 0xc7, 0x03, 0xc0]
  {
  }

  lemma ThirdLane()
    ensures LaneBytes(0x3b2782ca53b600e5) == [0xe5, 0x00, 0xb6, 0x53, 0xca, 0x82, 0x27, 0x3b]
  {
  }

  lemma FourthLane()
    ensures LaneBytes(0x70a4855d04d8fa7b) == [0x7b, 0xfa, 0xd8, 0x04, 0x5d, 0x85, 0xa4, 0x70]
  {
  }

  lemma LastDigest()
    ensures Digest(Lanes(STATE24)) == [
      0xc5, 0xd2, 0x46, 0x01, 0x86, 0xf7, 0x23, 0x3c, 0x92, 0x7e, 0x7d, 0xb2, 0xdc, 0xc7, 0x03, 0xc0,
      0xe5, 0x00, 0xb6, 0x53, 0xca, 0x82, 0x27, 0x3b, 0x7b, 0xfa, 0xd8, 0x04, 0x5d, 0x85, 0xa4, 0x70]
  {
    hide LaneBytes, Lanes;
    FirstLanes(STATE24);
    FirstLane(); SecondLane(); ThirdLane(); FourthLane();
  }

  lemma FirstLanes(c: Cube)
    ensures var s := Lanes(c); s[0] == c.y0.x0 && s[1] == c.y0.x1 && s[2] == c.y0.x2 && s[3] == c.y0.x3
  {
  }

  /** Keccak-256 of the empty message. */
  lemma EmptyMessage()
    ensures Keccak256([]) == [
      0xc5, 0xd2, 0x46, 0x01, 0x86, 0xf7, 0x23, 0x3c, 0x92, 0x7e, 0x7d, 0xb2, 0xdc, 0xc7, 0x03, 0xc0,
      0xe5, 0x00, 0xb6, 0x53, 0xca, 0x82, 0x27, 0x3b, 0x7b, 0xfa, 0xd8, 0x04, 0x5d, 0x85, 0xa4, 0x70]
  {
    hide KeccakF, AbsorbBlock, Digest, Padding, Lanes;
    EmptyBlock();
    Permuted();
    LastDigest();
    assert [] + Padding(0) == Padding(0);
    OneBlock(Padding(0));
  }
}
