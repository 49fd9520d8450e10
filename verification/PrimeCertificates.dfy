/**
 Certificates that the p and the L of Ed25519 are prime. Each prime rests on prime divisors of its predecessor
 whose product exceeds its square root, and on powers of 2 modulo it; every line of a chain of powers is two
 bits of the exponent and the power reached with them. What rests on what:

 57896044618658097711785492504343953926634992332820282019728792003956564819949
   on 74058212732561358302231226437062788676166966415465897661863160754340907
 74058212732561358302231226437062788676166966415465897661863160754340907
   on 353 and 75445702479781427272750846543864801
 75445702479781427272750846543864801 on 75707 and 1919519569386763
 1919519569386763 on 127 and 8574133
 8574133 on 103 and 991
 991 on 5 and 11
 75707 on 37853
 37853 on 9463
 9463 on 19 and 83
 7237005577332262213973186563042994240857116359379907606001950938285454250989
   on 276602624281642239937218680557139826668747
 276602624281642239937218680557139826668747
   on 19757330305831588566944191468367130476339
 19757330305831588566944191468367130476339
   on 172054593956031949258510691
 172054593956031949258510691 on 4434155615661930479
 4434155615661930479 on 1257559732178653
 1257559732178653 on 531581 and 1224481
 531581 on 3797
 3797 on 73
 1224481 on 2551
 2551 on 5 and 17
 */
module PrimeCertificates {
  import opened NumberTheory
  import opened SmallPrimes
  import opened Pocklington

  lemma Part14A()
    ensures Reaches(9463, 2, 498,
                    6272)
  {
    hide Reaches;
    var n := 9463;
    var e, x := Nothing(n, 2);
    e, x := Up1(n, e, x, 2);
    e, x := Up3(n, e, x, 128);
    e, x := Up3(n, e, x, 7206);
    e, x := Up0(n, e, x, 7139);
    e, x := Up2(n, e, x, 6272);
  }

  lemma Rest14()
    ensures Reaches(9463, 6272, 19,
                    1)
  {
    hide Reaches;
    var n := 9463;
    var e, x := Nothing(n, 6272);
    e, x := One(n, 6272, e, x, 1, 6272);
    e, x := One(n, 6272, e, x, 0, 293);
    e, x := One(n, 6272, e, x, 0, 682);
    e, x := One(n, 6272, e, x, 1, 4088);
    e, x := One(n, 6272, e, x, 1, 1);
  }

  lemma Whole14()
    ensures Reaches(9463, 2,
                    9462,
                    1)
  {
    hide Reaches;
    Part14A();
    Rest14();
    Raised(9463, 2,
           498,
           6272, 19, 1);
  }

  lemma Part14B()
    ensures Reaches(9463, 2, 114,
                    6023)
  {
    hide Reaches;
    var n := 9463;
    var e, x := Nothing(n, 2);
    e, x := Up1(n, e, x, 2);
    e, x := Up3(n, e, x, 128);
    e, x := Up0(n, e, x, 7998);
    e, x := Up2(n, e, x, 6023);
  }

  lemma Prime14()
    ensures Prime(9463)
  {
    hide Prime, Reaches, DividesAll;
    Whole14();
    SiftedIsPrime(19);
    Part14A();
    Divides(9463, 2,
            19,
            498,
            6272,
            9128);
    SiftedIsPrime(83);
    Part14B();
    Divides(9463, 2,
            83,
            114,
            6023,
            11);
    DividesBoth(9463, 19, 83);
    NoRoom(9463,
           1577);
  }

  lemma Whole16()
    ensures Reaches(37853, 2, 37852,
                    1)
  {
    hide Reaches;
    var n := 37853;
    var e, x := Nothing(n, 2);
    e, x := Up2(n, e, x, 4);
    e, x := Up1(n, e, x, 512);
    e, x := Up0(n, e, x, 4946);
    e, x := Up3(n, e, x, 32359);
    e, x := Up3(n, e, x, 29212);
    e, x := Up1(n, e, x, 3404);
    e, x := Up3(n, e, x, 21060);
    e, x := Up0(n, e, x, 1);
  }

  lemma Part16()
    ensures Reaches(37853, 2, 4,
                    16)
  {
    hide Reaches;
    var n := 37853;
    var e, x := Nothing(n, 2);
    e, x := Up1(n, e, x, 2);
    e, x := Up0(n, e, x, 16);
  }

  lemma Prime16()
    ensures Prime(37853)
  {
    hide Prime, Reaches, DividesAll;
    Whole16();
    Prime14();
    Part16();
    Divides(37853, 2,
            9463,
            4,
            16,
            32806);
    NoRoom(37853,
           9463);
  }

  lemma Whole17()
    ensures Reaches(75707, 2, 75706,
                    1)
  {
    hide Reaches;
    var n := 75707;
    var e, x := Nothing(n, 2);
    e, x := Up1(n, e, x, 2);
    e, x := Up0(n, e, x, 16);
    e, x := Up2(n, e, x, 35023);
    e, x := Up1(n, e, x, 63016);
    e, x := Up3(n, e, x, 13453);
    e, x := Up2(n, e, x, 2897);
    e, x := Up3(n, e, x, 8325);
    e, x := Up2(n, e, x, 55575);
    e, x := Up2(n, e, x, 1);
  }

  lemma Part17()
    ensures Reaches(75707, 2, 2,
                    4)
  {
    hide Reaches;
    var n := 75707;
    var e, x := Nothing(n, 2);
    e, x := Up2(n, e, x, 4);
  }

  lemma Prime17()
    ensures Prime(75707)
  {
    hide Prime, Reaches, DividesAll;
    Whole17();
    Prime16();
    Part17();
    Divides(75707, 2,
            37853,
            2,
            4,
            25236);
    NoRoom(75707,
           37853);
  }

  lemma Part10A()
    ensures Reaches(991, 2, 198,
                    799)
  {
    hide Reaches;
    var n := 991;
    var e, x := Nothing(n, 2);
    e, x := Up3(n, e, x, 8);
    e, x := Up0(n, e, x, 132);
    e, x := Up1(n, e, x, 897);
    e, x := Up2(n, e, x, 799);
  }

  lemma Rest10()
    ensures Reaches(991, 799, 5,
                    1)
  {
    hide Reaches;
    var n := 991;
    var e, x := Nothing(n, 799);
    e, x := One(n, 799, e, x, 1, 799);
    e, x := One(n, 799, e, x, 0, 197);
    e, x := One(n, 799, e, x, 1, 1);
  }

  lemma Whole10()
    ensures Reaches(991, 2,
                    990,
                    1)
  {
    hide Reaches;
    Part10A();
    Rest10();
    Raised(991, 2,
           198,
           799, 5, 1);
  }

  lemma Part10B()
    ensures Reaches(991, 2, 90,
                    50)
  {
    hide Reaches;
    var n := 991;
    var e, x := Nothing(n, 2);
    e, x := Up1(n, e, x, 2);
    e, x := Up1(n, e, x, 32);
    e, x := Up2(n, e, x, 392);
    e, x := Up2(n, e, x, 50);
  }

  lemma Prime10()
    ensures Prime(991)
  {
    hide Prime, Reaches, DividesAll;
    Whole10();
    SiftedIsPrime(5);
    Part10A();
    Divides(991, 2,
            5,
            198,
            799,
            267);
    SiftedIsPrime(11);
    Part10B();
    Divides(991, 2,
            11,
            90,
            50,
            809);
    DividesBoth(991, 5, 11);
    NoRoom(991,
           55);
  }

  lemma Part24A()
    ensures Reaches(8574133, 2, 83244,
                    4321357)
  {
    hide Reaches;
    var n := 8574133;
    var e, x := Nothing(n, 2);
    e, x := Up1(n, e, x, 2);
    e, x := Up1(n, e, x, 32);
    e, x := Up0(n, e, x, 1048576);
    e, x := Up1(n, e, x, 8138366);
    e, x := Up1(n, e, x, 7068967);
    e, x := Up0(n, e, x, 950259);
    e, x := Up2(n, e, x, 6427925);
    e, x := Up3(n, e, x, 6672998);
    e, x := Up0(n, e, x, 4321357);
  }

  lemma Rest24()
    ensures Reaches(8574133, 4321357, 103,
                    1)
  {
    hide Reaches;
    var n := 8574133;
    var e, x := Nothing(n, 4321357);
    e, x := One(n, 4321357, e, x, 1, 4321357);
    e, x := One(n, 4321357, e, x, 1, 1889143);
    e, x := One(n, 4321357, e, x, 0, 7025194);
    e, x := One(n, 4321357, e, x, 0, 6703794);
    e, x := One(n, 4321357, e, x, 1, 2240050);
    e, x := One(n, 4321357, e, x, 1, 6797821);
    e, x := One(n, 4321357, e, x, 1, 1);
  }

  lemma Whole24()
    ensures Reaches(8574133, 2,
                    8574132,
                    1)
  {
    hide Reaches;
    Part24A();
    Rest24();
    Raised(8574133, 2,
           83244,
           4321357, 103, 1);
  }

  lemma Part24B()
    ensures Reaches(8574133, 2, 8652,
                    3435729)
  {
    hide Reaches;
    var n := 8574133;
    var e, x := Nothing(n, 2);
    e, x := Up2(n, e, x, 4);
    e, x := Up0(n, e, x, 256);
    e, x := Up1(n, e, x, 7227459);
    e, x := Up3(n, e, x, 430341);
    e, x := Up0(n, e, x, 7336713);
    e, x := Up3(n, e, x, 69772);
    e, x := Up0(n, e, x, 3435729);
  }

  lemma Prime24()
    ensures Prime(8574133)
  {
    hide Prime, Reaches, DividesAll;
    Whole24();
    SiftedIsPrime(103);
    Part24A();
    Divides(8574133, 2,
            103,
            83244,
            4321357,
            3531099);
    Prime10();
    Part24B();
    Divides(8574133, 2,
            991,
            8652,
            3435729,
            1014251);
    DividesBoth(8574133, 103, 991);
    NoRoom(8574133,
           102073);
  }

  lemma Part51A1()
    ensures Reaches(1919519569386763, 2, 3690021317,
                    568675053589795)
  {
    hide Reaches;
    var n := 1919519569386763;
    var e, x := Nothing(n, 2);
    e, x := Up3(n, e, x, 8);
    e, x := Up1(n, e, x, 8192);
    e, x := Up2(n, e, x, 738722385001117);
    e, x := Up3(n, e, x, 1496445553941283);
    e, x := Up3(n, e, x, 474034962347525);
    e, x := Up3(n, e, x, 1321066390386271);
    e, x := Up0(n, e, x, 1422904383673020);
    e, x := Up1(n, e, x, 1823960500244398);
    e, x := Up1(n, e, x, 413167392912096);
    e, x := Up0(n, e, x, 575143645685246);
    e, x := Up0(n, e, x, 1740461794616202);
    e, x := Up1(n, e, x, 1399712894276221);
    e, x := Up3(n, e, x, 1080451766835894);
    e, x := Up0(n, e, x, 1149642923455661);
    e, x := Up1(n, e, x, 1876761100069854);
    e, x := Up1(n, e, x, 568675053589795);
  }

  lemma Part51A()
    ensures Reaches(1919519569386763, 2, 15114327318006,
                    576774792492622)
  {
    hide Reaches;
    Part51A1();
    var n := 1919519569386763;
    var e, x := 3690021317, 568675053589795;
    e, x := Up3(n, e, x, 695314063789591);
    e, x := Up1(n, e, x, 1320941823257237);
    e, x := Up3(n, e, x, 1233058283147163);
    e, x := Up3(n, e, x, 1691588563548211);
    e, x := Up1(n, e, x, 66860336859737);
    e, x := Up2(n, e, x, 576774792492622);
  }

  lemma Rest51()
    ensures Reaches(1919519569386763, 576774792492622, 127,
                    1)
  {
    hide Reaches;
    var n := 1919519569386763;
    var e, x := Nothing(n, 576774792492622);
    e, x := One(n, 576774792492622, e, x, 1, 576774792492622);
    e, x := One(n, 576774792492622, e, x, 1, 1357890764181271);
    e, x := One(n, 576774792492622, e, x, 1, 759458092768680);
    e, x := One(n, 576774792492622, e, x, 1, 78454425872112);
    e, x := One(n, 576774792492622, e, x, 1, 1320549840644032);
    e, x := One(n, 576774792492622, e, x, 1, 1693956375729866);
    e, x := One(n, 576774792492622, e, x, 1, 1);
  }

  lemma Whole51()
    ensures Reaches(1919519569386763, 2,
                    1919519569386762,
                    1)
  {
    hide Reaches;
    Part51A();
    Rest51();
    Raised(1919519569386763, 2,
           15114327318006,
           576774792492622, 127, 1);
  }

  lemma Part51B()
    ensures Reaches(1919519569386763, 2, 223873314,
                    1059928654987441)
  {
    hide Reaches;
    var n := 1919519569386763;
    var e, x := Nothing(n, 2);
    e, x := Up3(n, e, x, 8);
    e, x := Up1(n, e, x, 8192);
    e, x := Up1(n, e, x, 1329120977193940);
    e, x := Up1(n, e, x, 1672969091722082);
    e, x := Up2(n, e, x, 1131232746713132);
    e, x := Up0(n, e, x, 439825148891359);
    e, x := Up0(n, e, x, 1417188017686439);
    e, x := Up0(n, e, x, 1384618485920380);
    e, x := Up2(n, e, x, 821990456217230);
    e, x := Up1(n, e, x, 1639521232619602);
    e, x := Up0(n, e, x, 280066608751023);
    e, x := Up2(n, e, x, 661679051269421);
    e, x := Up0(n, e, x, 1817493499934335);
    e, x := Up2(n, e, x, 1059928654987441);
  }

  lemma Prime51()
    ensures Prime(1919519569386763)
  {
    hide Prime, Reaches, DividesAll;
    Whole51();
    SiftedIsPrime(127);
    Part51A();
    Divides(1919519569386763, 2,
            127,
            15114327318006,
            576774792492622,
            1870148777187772);
    Prime24();
    Part51B();
    Divides(1919519569386763, 2,
            8574133,
            223873314,
            1059928654987441,
            1290547218147893);
    DividesBoth(1919519569386763, 127, 8574133);
    NoRoom(1919519569386763,
           1088914891);
  }

  lemma Part116A1()
    ensures Reaches(75445702479781427272750846543864801, 2, 3376437884,
                    66054479624436950297568087597714785)
  {
    hide Reaches;
    var n := 75445702479781427272750846543864801;
    var e, x := Nothing(n, 2);
    e, x := Up3(n, e, x, 8);
    e, x := Up0(n, e, x, 4096);
    e, x := Up2(n, e, x, 1125899906842624);
    e, x := Up1(n, e, x, 25028188176008862889154256311568287);
    e, x := Up1(n, e, x, 525363819010122823253469691904);
    e, x := Up0(n, e, x, 51139903851012766799841363386916235);
    e, x := Up0(n, e, x, 68799981630686892325136022371282452);
    e, x := Up0(n, e, x, 40229968882241094293474412253592870);
    e, x := Up1(n, e, x, 18468560993401677925031625497034721);
    e, x := Up1(n, e, x, 32753961333840442901222442004650274);
    e, x := Up2(n, e, x, 45073371629930336582682358468168861);
    e, x := Up2(n, e, x, 47592774870363352653081534189199153);
    e, x := Up1(n, e, x, 72470085821247444221854319097181621);
    e, x := Up3(n, e, x, 43182654324332621718837631774779721);
    e, x := Up3(n, e, x, 8891098993496774299914354183761654);
    e, x := Up0(n, e, x, 66054479624436950297568087597714785);
  }

  lemma Part116A2()
    ensures Reaches(75445702479781427272750846543864801, 2, 14501690290598836381,
                    40981923851260910790607849355824245)
  {
    hide Reaches;
    Part116A1();
    var n := 75445702479781427272750846543864801;
    var e, x := 3376437884, 66054479624436950297568087597714785;
    e, x := Up1(n, e, x, 22419998889373521538783833000880123);
    e, x := Up2(n, e, x, 52515920781592351666453534436739205);
    e, x := Up3(n, e, x, 32631694856710357160549963474898243);
    e, x := Up1(n, e, x, 69301567322411981641162605964298606);
    e, x := Up3(n, e, x, 13080760679869461802587987436960951);
    e, x := Up1(n, e, x, 31554374427373445403772805978211812);
    e, x := Up3(n, e, x, 18898575225627432890697522413496292);
    e, x := Up3(n, e, x, 60740852850531118790461157353272921);
    e, x := Up3(n, e, x, 69706658412228872767717147444286456);
    e, x := Up3(n, e, x, 18835109685187376995509574567725114);
    e, x := Up2(n, e, x, 67436377777297514487714233337269145);
    e, x := Up0(n, e, x, 8297311239036995625174430186607393);
    e, x := Up2(n, e, x, 58621416916463026388768312822378008);
    e, x := Up1(n, e, x, 36831176152643509158522233730869404);
    e, x := Up3(n, e, x, 52356073070347622633435783188875469);
    e, x := Up1(n, e, x, 40981923851260910790607849355824245);
  }

  lemma Part116A3()
    ensures Reaches(75445702479781427272750846543864801, 2, 62284285534842738512250226650,
                    54393837718160944054781688014330994)
  {
    hide Reaches;
    Part116A2();
    var n := 75445702479781427272750846543864801;
    var e, x := 14501690290598836381, 40981923851260910790607849355824245;
    e, x := Up0(n, e, x, 66503615601871986970065930506455759);
    e, x := Up0(n, e, x, 47061944961031701413151483862569020);
    e, x := Up2(n, e, x, 44682465458225267026310350734752815);
    e, x := Up3(n, e, x, 6741280296826016773998122657792687);
    e, x := Up3(n, e, x, 56012821311071537282793054771466293);
    e, x := Up2(n, e, x, 49289954941203021712510947086021808);
    e, x := Up3(n, e, x, 38378231988225607398047279269679275);
    e, x := Up3(n, e, x, 8265492855759132608943725231506084);
    e, x := Up1(n, e, x, 16322684511537938205665612333171268);
    e, x := Up0(n, e, x, 11590085039701198534304173300194195);
    e, x := Up1(n, e, x, 47268426716319166950666568420674864);
    e, x := Up3(n, e, x, 56057939102309228668685882701405968);
    e, x := Up3(n, e, x, 53042832934621817754314490888272956);
    e, x := Up1(n, e, x, 73275829268763987217162248150580679);
    e, x := Up2(n, e, x, 24000136134063440218256366738828295);
    e, x := Up2(n, e, x, 54393837718160944054781688014330994);
  }

  lemma Part116A()
    ensures Reaches(75445702479781427272750846543864801, 2, 996548568557483816196003626400,
                    58781699294900834553279248901967638)
  {
    hide Reaches;
    Part116A3();
    var n := 75445702479781427272750846543864801;
    var e, x := 62284285534842738512250226650, 54393837718160944054781688014330994;
    e, x := Up0(n, e, x, 12040871634077962324165912726243677);
    e, x := Up0(n, e, x, 58781699294900834553279248901967638);
  }

  lemma Rest1161()
    ensures Reaches(75445702479781427272750846543864801, 
                    58781699294900834553279248901967638, 37853,
                    28334687151944976347191379370218119)
  {
    hide Reaches;
    var n := 75445702479781427272750846543864801;
    var e, x := Nothing(n, 58781699294900834553279248901967638);
    e, x := One(n, 58781699294900834553279248901967638, e, x, 1, 58781699294900834553279248901967638);
    e, x := One(n, 58781699294900834553279248901967638, e, x, 0, 19272071963980053171874812410858062);
    e, x := One(n, 58781699294900834553279248901967638, e, x, 0, 10857113732875552884559949348183714);
    e, x := One(n, 58781699294900834553279248901967638, e, x, 1, 37861386965902158392126361241741285);
    e, x := One(n, 58781699294900834553279248901967638, e, x, 0, 67447059549274550976172462060274558);
    e, x := One(n, 58781699294900834553279248901967638, e, x, 0, 22845150612647514685709838606502843);
    e, x := One(n, 58781699294900834553279248901967638, e, x, 1, 13032174792409769475902886973017269);
    e, x := One(n, 58781699294900834553279248901967638, e, x, 1, 56396309446115810308722588662736980);
    e, x := One(n, 58781699294900834553279248901967638, e, x, 1, 43606569418259492473421754424002376);
    e, x := One(n, 58781699294900834553279248901967638, e, x, 1, 41247452127839348557193559971532426);
    e, x := One(n, 58781699294900834553279248901967638, e, x, 0, 60273352786765568393059048004767158);
    e, x := One(n, 58781699294900834553279248901967638, e, x, 1, 17935781077466366980090080633886685);
    e, x := One(n, 58781699294900834553279248901967638, e, x, 1, 16430842475225517589341425812002149);
    e, x := One(n, 58781699294900834553279248901967638, e, x, 1, 36588309395503799027174081950811862);
    e, x := One(n, 58781699294900834553279248901967638, e, x, 0, 46635804452740277961578082113988866);
    e, x := One(n, 58781699294900834553279248901967638, e, x, 1, 28334687151944976347191379370218119);
  }

  lemma Rest116()
    ensures Reaches(75445702479781427272750846543864801, 
                    58781699294900834553279248901967638, 75707,
                    1)
  {
    hide Reaches;
    Rest1161();
    var n := 75445702479781427272750846543864801;
    var e, x := 37853, 28334687151944976347191379370218119;
    e, x := One(n, 58781699294900834553279248901967638, e, x, 1, 1);
  }

  lemma Whole116()
    ensures Reaches(75445702479781427272750846543864801, 2,
                    75445702479781427272750846543864800,
                    1)
  {
    hide Reaches;
    Part116A();
    Rest116();
    Raised(75445702479781427272750846543864801, 2,
           996548568557483816196003626400,
           58781699294900834553279248901967638, 75707, 1);
  }

  lemma Part116B1()
    ensures Reaches(75445702479781427272750846543864801, 2, 2287821357,
                    41483535797710063532135253890982379)
  {
    hide Reaches;
    var n := 75445702479781427272750846543864801;
    var e, x := Nothing(n, 2);
    e, x := Up2(n, e, x, 4);
    e, x := Up0(n, e, x, 256);
    e, x := Up2(n, e, x, 17179869184);
    e, x := Up0(n, e, x, 37249017818367551225803357327630101);
    e, x := Up1(n, e, x, 21000198704586354065408);
    e, x := Up1(n, e, x, 54651969301387637110966512518401958);
    e, x := Up3(n, e, x, 51294626676562810936092654843532318);
    e, x := Up1(n, e, x, 32799974849867834837920162526425488);
    e, x := Up1(n, e, x, 64134687226725695320034102205120082);
    e, x := Up2(n, e, x, 52731668160668534429276816145493709);
    e, x := Up0(n, e, x, 6815899006979597721589967479114253);
    e, x := Up2(n, e, x, 36418643877802785581023883602796239);
    e, x := Up0(n, e, x, 57793553327652931187992881475744335);
    e, x := Up2(n, e, x, 61109090482572984699313167350717626);
    e, x := Up3(n, e, x, 12989690226474060391927371730921649);
    e, x := Up1(n, e, x, 41483535797710063532135253890982379);
  }

  lemma Part116B2()
    ensures Reaches(75445702479781427272750846543864801, 2, 9826117910311847400,
                    65810772782638593774538249456932274)
  {
    hide Reaches;
    Part116B1();
    var n := 75445702479781427272750846543864801;
    var e, x := 2287821357, 41483535797710063532135253890982379;
    e, x := Up2(n, e, x, 513309348704093895960925166856925);
    e, x := Up2(n, e, x, 48786791113838861753548469283555870);
    e, x := Up3(n, e, x, 34192708828629508492652582794096709);
    e, x := Up1(n, e, x, 74284037970676428699992465145163071);
    e, x := Up0(n, e, x, 57875049575816904056842656006512377);
    e, x := Up3(n, e, x, 12685289843374237635476675559532455);
    e, x := Up3(n, e, x, 38784832849308944787944580903906813);
    e, x := Up1(n, e, x, 38877602689008559621761620122014640);
    e, x := Up3(n, e, x, 72466306610823254233320016583786269);
    e, x := Up0(n, e, x, 43675134191290428119386496951976659);
    e, x := Up1(n, e, x, 18935679146042012693248632693634471);
    e, x := Up1(n, e, x, 41712449112149596090570426404649850);
    e, x := Up3(n, e, x, 13823227504923762148479631860009137);
    e, x := Up2(n, e, x, 1888738652562569663194994370406907);
    e, x := Up2(n, e, x, 44692679468887818587537417286939922);
    e, x := Up0(n, e, x, 65810772782638593774538249456932274);
  }

  lemma Part116B()
    ensures Reaches(75445702479781427272750846543864801, 2, 39304471641247389600,
                    56747016255153332959347766392083459)
  {
    hide Reaches;
    Part116B2();
    var n := 75445702479781427272750846543864801;
    var e, x := 9826117910311847400, 65810772782638593774538249456932274;
    e, x := Up0(n, e, x, 56747016255153332959347766392083459);
  }

  lemma Prime116()
    ensures Prime(75445702479781427272750846543864801)
  {
    hide Prime, Reaches, DividesAll;
    Whole116();
    Prime17();
    Part116A();
    Divides(75445702479781427272750846543864801, 2,
            75707,
            996548568557483816196003626400,
            58781699294900834553279248901967638,
            8986369574106813140303762220009459);
    Prime51();
    Part116B();
    Divides(75445702479781427272750846543864801, 2,
            1919519569386763,
            39304471641247389600,
            56747016255153332959347766392083459,
            74602835786463724888147869570305675);
    DividesBoth(75445702479781427272750846543864801, 75707, 1919519569386763);
    NoRoom(75445702479781427272750846543864801,
           145321068039563666441);
  }

  lemma Part236A1()
    ensures Reaches(74058212732561358302231226437062788676166966415465897661863160754340907, 2, 2088908280,
                    6288415898620855136697447113532924530965474995816487699568848970478408)
  {
    hide Reaches;
    var n := 74058212732561358302231226437062788676166966415465897661863160754340907;
    var e, x := Nothing(n, 2);
    e, x := Up1(n, e, x, 2);
    e, x := Up3(n, e, x, 128);
    e, x := Up3(n, e, x, 2147483648);
    e, x := Up0(n, e, x, 21267647932558653966460912964485513216);
    e, x := Up2(n, e, x, 15332364354788093711008808598298155468112692265701924125307607499922141);
    e, x := Up0(n, e, x, 41106090973708891838101389897987714768736839254975085150187961576977279);
    e, x := Up0(n, e, x, 198070406285660843983859875840000000000000000000000000000000);
    e, x := Up2(n, e, x, 22914942042852180170664216294543208430710239546165972272005422331430268);
    e, x := Up0(n, e, x, 68374371026855152641020612544231144033750809634219457695849954770100602);
    e, x := Up3(n, e, x, 20047679271587532369755212499414624199142545264439366494282172378528472);
    e, x := Up1(n, e, x, 23740934965209364792489286609899571911150519750110856637283834186795286);
    e, x := Up1(n, e, x, 17652139274713192475544312847887692193788048695010724881718111497073447);
    e, x := Up3(n, e, x, 13217105514832371164874350797534255318866630777056687337293298564101378);
    e, x := Up3(n, e, x, 57035043278730106897932816711537688585886666385181500225138726015789441);
    e, x := Up2(n, e, x, 57333618419977659353137420462752924873889950472721819865373196097989936);
    e, x := Up0(n, e, x, 6288415898620855136697447113532924530965474995816487699568848970478408);
  }

  lemma Part236A2()
    ensures Reaches(74058212732561358302231226437062788676166966415465897661863160754340907, 2, 8971792747154244131,
                    17611019148409857174361663737420163928569641209229863495708252705407984)
  {
    hide Reaches;
    Part236A1();
    var n := 74058212732561358302231226437062788676166966415465897661863160754340907;
    var e, x := 2088908280, 6288415898620855136697447113532924530965474995816487699568848970478408;
    e, x := Up0(n, e, x, 412024349816548200141943086364028596205517079726380246156891559168838);
    e, x := Up0(n, e, x, 25794811537514061671217865641243215712386975086486431578608802694352962);
    e, x := Up3(n, e, x, 12402681362103566692191755834799521852194165119430417263967805021582129);
    e, x := Up0(n, e, x, 54119559549342178926661259191292698713063070265658336630313617810070082);
    e, x := Up2(n, e, x, 21974114212019433659559660885945426361873837407520300720211005040473906);
    e, x := Up0(n, e, x, 3338405103414837600900035204796466079523471613102897481086102142041825);
    e, x := Up3(n, e, x, 25090574961964846402298022528070477250387338432928092988165513205555331);
    e, x := Up2(n, e, x, 18346078597584348673254757592498050935287390712506105197126223187525062);
    e, x := Up0(n, e, x, 72505816021625066873862501123160121680444432004743548101967399656540584);
    e, x := Up0(n, e, x, 54731198991751086546378799100606212665379413009075113482341243567744066);
    e, x := Up0(n, e, x, 32259316831568265355352392339602711620692714114865623199353385503262499);
    e, x := Up2(n, e, x, 46044699715115020722601546994748792867612014162035495430954632311842061);
    e, x := Up0(n, e, x, 58200707597908217134997745259242940674930352514941598826230714278546148);
    e, x := Up2(n, e, x, 33828936007762808497011543111955492414843289246320578888850315407797608);
    e, x := Up0(n, e, x, 25417467184575767252357029680349076241909971139576215162319634887478625);
    e, x := Up3(n, e, x, 17611019148409857174361663737420163928569641209229863495708252705407984);
  }

  lemma Part236A3()
    ensures Reaches(74058212732561358302231226437062788676166966415465897661863160754340907, 2,
            38533556435517475613081990380,
                    2181215040708824600356432598135265150220121148342789236529255445881254)
  {
    hide Reaches;
    Part236A2();
    var n := 74058212732561358302231226437062788676166966415465897661863160754340907;
    var e, x := 8971792747154244131, 17611019148409857174361663737420163928569641209229863495708252705407984;
    e, x := Up2(n, e, x, 67429644204731085953302479634755481906596003546785610421793126891867068);
    e, x := Up2(n, e, x, 13522026498945079246315372398662500917260781449168065402207743718647861);
    e, x := Up2(n, e, x, 56291050344972431097370445655682286159912054361944766578846226860422846);
    e, x := Up1(n, e, x, 16609732155360190970712018114430129616440436255891635592624638388153923);
    e, x := Up0(n, e, x, 32997167712020870889150033703062422367684660713007268013937588004634268);
    e, x := Up1(n, e, x, 1864007810010288188741399701514243311252431279415540092930578165154558);
    e, x := Up2(n, e, x, 31803514822572220289156062795099342274597864049633584675715267654392556);
    e, x := Up1(n, e, x, 60983384935866775461507939732031772304301220030237765593725493615139189);
    e, x := Up3(n, e, x, 34076489444048659561239079338855008208513262077725104410136794821062466);
    e, x := Up3(n, e, x, 38092472508530124247277835993581080589771685417685710040505201468200695);
    e, x := Up1(n, e, x, 46397760927443049928415372891242081617255358156376832411987395353815373);
    e, x := Up0(n, e, x, 51974344635063833093859512245483510711692929980955080034350232016420642);
    e, x := Up3(n, e, x, 15607226933549849188412149648224408871015677297701428383776792889708235);
    e, x := Up2(n, e, x, 11210151264481738265985691976016405560279917407136710771250022789035608);
    e, x := Up3(n, e, x, 65555377648132053839042557023093953082877476083703538010095354435015163);
    e, x := Up0(n, e, x, 2181215040708824600356432598135265150220121148342789236529255445881254);
  }

  lemma Part236A4()
    ensures Reaches(74058212732561358302231226437062788676166966415465897661863160754340907, 2,
            165500364689117890594664698452730865389,
                    2353221616674908972258510492962087853460559898516759426930962954957499)
  {
    hide Reaches;
    Part236A3();
    var n := 74058212732561358302231226437062788676166966415465897661863160754340907;
    var e, x := 38533556435517475613081990380, 2181215040708824600356432598135265150220121148342789236529255445881254;
    e, x := Up3(n, e, x, 17913953209660076527292640574682677218388229127185038142443348322536544);
    e, x := Up3(n, e, x, 29682276558738579352704453691857994359974866308418655819795561839065293);
    e, x := Up0(n, e, x, 35794930560100010156687473970915806510700091833258447157997559803131529);
    e, x := Up1(n, e, x, 5092182106714500945711176257032935062977714911214900685274704292955545);
    e, x := Up0(n, e, x, 35476441234520760154751879380824823710469324108163379177643229645563650);
    e, x := Up0(n, e, x, 46866325779079349965483339549245942405815508686002849629816023934934753);
    e, x := Up3(n, e, x, 66354439529274802338907210702568782542386312007989526581484428988660262);
    e, x := Up2(n, e, x, 55567812703539821419447705102927664296609580495506865073393127574190255);
    e, x := Up1(n, e, x, 21477345617446243029579794320946064375794653516798976151512819202325195);
    e, x := Up2(n, e, x, 37378628906462158650990154137639227099388006261582363094841530520425838);
    e, x := Up1(n, e, x, 50792696317277242369046217246118328072763882147087315497958045245082307);
    e, x := Up2(n, e, x, 34242479913380061653905295380126776521067449906465867298438615715131501);
    e, x := Up3(n, e, x, 65083176086450438169915310746334562236446053633666714105479013111252319);
    e, x := Up2(n, e, x, 11447567268194517353183948652276325861307116256737891499257993266432259);
    e, x := Up3(n, e, x, 39748278539264179113990270542757607627332245816611136643167201758124873);
    e, x := Up1(n, e, x, 2353221616674908972258510492962087853460559898516759426930962954957499);
  }

  lemma Part236A5()
    ensures Reaches(74058212732561358302231226437062788676166966415465897661863160754340907, 2,
            710818653815834547192590871940180868735686226888,
                    20506425541384661940473463327449387608860530765032982500561360013500847)
  {
    hide Reaches;
    Part236A4();
    var n := 74058212732561358302231226437062788676166966415465897661863160754340907;
    var e, x := 165500364689117890594664698452730865389,
        2353221616674908972258510492962087853460559898516759426930962954957499;
    e, x := Up0(n, e, x, 626112192816100370689606523811757047494990467139121588476015404127396);
    e, x := Up0(n, e, x, 1853133077678783669732589300477660516315778736200186463272420053820546);
    e, x := Up2(n, e, x, 14806834559799583892244899064339596776476858801114407515710139105152080);
    e, x := Up1(n, e, x, 32372565889325925750827761063411896528178707044507442638887595466942105);
    e, x := Up0(n, e, x, 11582302045526555329138884773835695608530111208948770234021666157146460);
    e, x := Up1(n, e, x, 45104934616076462866244328011141574532125779587487763859516876629683401);
    e, x := Up3(n, e, x, 43260051023609302975491150684566069111933147291935841245043109464413065);
    e, x := Up1(n, e, x, 6132545310875193596639989263877865828778173237518013901740318775212444);
    e, x := Up0(n, e, x, 33188750509360569261085627736760487340967385603443871443859640257349543);
    e, x := Up3(n, e, x, 69824840827227745672769668983798096560565983835542829108679261672605029);
    e, x := Up0(n, e, x, 27450854856517511367776299244938734878355786778542976268575531449272881);
    e, x := Up3(n, e, x, 67668597600384744556199357078620570984818645165174480099408626640375731);
    e, x := Up3(n, e, x, 46436929596591669777751169727202855041550095936709070120414013109754040);
    e, x := Up0(n, e, x, 36179307482845481609848339157336807716876725707440959508771589476102856);
    e, x := Up2(n, e, x, 15064173813767005617549706363041070602460953666876671126720375588548938);
    e, x := Up0(n, e, x, 20506425541384661940473463327449387608860530765032982500561360013500847);
  }

  lemma Part236A6()
    ensures Reaches(74058212732561358302231226437062788676166966415465897661863160754340907, 2,
            3052942871525754987139146408491200899544641212604176545844,
                    4459955485037572473818550997453445193442650770193213446026889776361160)
  {
    hide Reaches;
    Part236A5();
    var n := 74058212732561358302231226437062788676166966415465897661863160754340907;
    var e, x := 710818653815834547192590871940180868735686226888,
        20506425541384661940473463327449387608860530765032982500561360013500847;
    e, x := Up2(n, e, x, 71425356840474608203703619733383876824721614982639628445214077477153968);
    e, x := Up1(n, e, x, 15602241204812307391118315165715968669053200433916792364806881977358173);
    e, x := Up2(n, e, x, 70075214107254112078977021390084843345536754053461903193563542785178388);
    e, x := Up1(n, e, x, 49719901405035636036265182483128730562551148702430787287584767140775087);
    e, x := Up3(n, e, x, 28639085084386858783498765131685447929846558743848312644172332453958694);
    e, x := Up1(n, e, x, 47324601305947084540464286818508181546177197573896245462661781926582169);
    e, x := Up0(n, e, x, 47879316742206143557453855281468530878464992872339500386272362612035646);
    e, x := Up2(n, e, x, 57842258273074398787967867736816757434061530349917377050586970833565582);
    e, x := Up0(n, e, x, 12681981443826589886290857067318826209650547822167824500792130532345973);
    e, x := Up3(n, e, x, 71635378315474223223417269613213002416450063839495860258741763946219366);
    e, x := Up2(n, e, x, 8819153439228122662293007935925798180710268810710648156998926283029545);
    e, x := Up0(n, e, x, 21671272607125531633107094959960235442768959299508678612014023883561598);
    e, x := Up0(n, e, x, 38234585936263188113153204429568957384070363044741245686231476072759839);
    e, x := Up3(n, e, x, 20563039294965368949738648941513438898316124257909778544205817799529020);
    e, x := Up1(n, e, x, 64874347957920409721412932292940663748872908420433960939529018790031910);
    e, x := Up0(n, e, x, 4459955485037572473818550997453445193442650770193213446026889776361160);
  }

  lemma Part236A7()
    ensures Reaches(74058212732561358302231226437062788676166966415465897661863160754340907, 2,
            13112289789759447291471534425825564567310015300188721257412032711462,
                    73926523866934479236542481615125229561745467175177673880405619477969930)
  {
    hide Reaches;
    Part236A6();
    var n := 74058212732561358302231226437062788676166966415465897661863160754340907;
    var e, x := 3052942871525754987139146408491200899544641212604176545844,
        4459955485037572473818550997453445193442650770193213446026889776361160;
    e, x := Up1(n, e, x, 37556798836145457201763531410746608071951528303248769561781797324942827);
    e, x := Up2(n, e, x, 35815698170274133831563290439177935804152398086230910138082670728708715);
    e, x := Up2(n, e, x, 35191527780886979788517868408230402756336644898875445135762822817292499);
    e, x := Up3(n, e, x, 21638755944905968009233527687489337650299478667948462912039469296717945);
    e, x := Up3(n, e, x, 26628249750296532395393132740292489487593362137408879855189697443892908);
    e, x := Up0(n, e, x, 51770086851464221031503262704826230357568244217811678366516641334627615);
    e, x := Up0(n, e, x, 35528976449811584508150190885668864274641475587387522367290501238921737);
    e, x := Up3(n, e, x, 46634709408715577863556897612186331440953414947790026646158585953193261);
    e, x := Up3(n, e, x, 45030490995686100096740603283331699454190651584175022797890161775509924);
    e, x := Up0(n, e, x, 5331569481725367790062574531437839647434604643913577963615933901664418);
    e, x := Up2(n, e, x, 49218799300941621700777887577765091126079783831576242523622348011959660);
    e, x := Up3(n, e, x, 23433340034704093956194687962317574205731089868991311340412583612730323);
    e, x := Up0(n, e, x, 26780777205520382730579362102228773197482138869253922947930486528568870);
    e, x := Up2(n, e, x, 10864939143422089567638043214629093725665990101315150269836183773024523);
    e, x := Up1(n, e, x, 17564772476073511330041565379811759915519947610164092978358626475317486);
    e, x := Up2(n, e, x, 73926523866934479236542481615125229561745467175177673880405619477969930);
  }

  lemma Part236A()
    ensures Reaches(74058212732561358302231226437062788676166966415465897661863160754340907, 2,
            209796636636151156663544550813209033076960244803019540118592523383402,
                    8562916886866218785688304546164188478888058893729309188831496247839076)
  {
    hide Reaches;
    Part236A7();
    var n := 74058212732561358302231226437062788676166966415465897661863160754340907;
    var e, x := 13112289789759447291471534425825564567310015300188721257412032711462,
        73926523866934479236542481615125229561745467175177673880405619477969930;
    e, x := Up2(n, e, x, 10416633099259662391457093178282627508095659035421849953000507705833484);
    e, x := Up2(n, e, x, 8562916886866218785688304546164188478888058893729309188831496247839076);
  }

  lemma Rest236()
    ensures Reaches(74058212732561358302231226437062788676166966415465897661863160754340907, 
                    8562916886866218785688304546164188478888058893729309188831496247839076, 353,
                    1)
  {
    hide Reaches;
    var n := 74058212732561358302231226437062788676166966415465897661863160754340907;
    var e, x := Nothing(n, 8562916886866218785688304546164188478888058893729309188831496247839076);
    e, x := One(n, 8562916886866218785688304546164188478888058893729309188831496247839076, e, x, 1,
        8562916886866218785688304546164188478888058893729309188831496247839076);
    e, x := One(n, 8562916886866218785688304546164188478888058893729309188831496247839076, e, x, 0,
        16153155050223087298160014462763671619986142323395781531433756842368703);
    e, x := One(n, 8562916886866218785688304546164188478888058893729309188831496247839076, e, x, 1,
        25171928313862840063030770210551396004168855366508115988049527562160009);
    e, x := One(n, 8562916886866218785688304546164188478888058893729309188831496247839076, e, x, 1,
        53380830016128662912109928654360594796415752176364461903178265429104804);
    e, x := One(n, 8562916886866218785688304546164188478888058893729309188831496247839076, e, x, 0,
        44834681646896416774739443742377987341720075798897526609092454803933452);
    e, x := One(n, 8562916886866218785688304546164188478888058893729309188831496247839076, e, x, 0,
        67130183245633195639869939918442703710504314834311865919213873480129168);
    e, x := One(n, 8562916886866218785688304546164188478888058893729309188831496247839076, e, x, 0,
        38818018837063819385421431524313588415600254480646167217742265151203685);
    e, x := One(n, 8562916886866218785688304546164188478888058893729309188831496247839076, e, x, 0,
        1249425937017005171791187917337941369870552391118378404367688045443375);
    e, x := One(n, 8562916886866218785688304546164188478888058893729309188831496247839076, e, x, 1, 1);
  }

  lemma Whole236()
    ensures Reaches(74058212732561358302231226437062788676166966415465897661863160754340907, 2,
                    74058212732561358302231226437062788676166966415465897661863160754340906,
                    1)
  {
    hide Reaches;
    Part236A();
    Rest236();
    Raised(74058212732561358302231226437062788676166966415465897661863160754340907, 2,
           209796636636151156663544550813209033076960244803019540118592523383402,
           8562916886866218785688304546164188478888058893729309188831496247839076, 353, 1);
  }

  lemma Part236B1()
    ensures Reaches(74058212732561358302231226437062788676166966415465897661863160754340907, 2, 3171751119,
                    23106016685637634157287559334335934391370487219714175683276611963389156)
  {
    hide Reaches;
    var n := 74058212732561358302231226437062788676166966415465897661863160754340907;
    var e, x := Nothing(n, 2);
    e, x := Up2(n, e, x, 4);
    e, x := Up3(n, e, x, 2048);
    e, x := Up3(n, e, x, 140737488355328);
    e, x := Up1(n, e, x, 784637716923335095479473677900958302012794430558004314112);
    e, x := Up0(n, e, x, 9257276591570169787778903304632848584520870801933237207732895094292629);
    e, x := Up0(n, e, x, 67350303327341567303664872675307345658867663549221305857041082473184575);
    e, x := Up3(n, e, x, 18418446759371592376799735687423774052183681127705011041697004266691425);
    e, x := Up1(n, e, x, 10820701348675090188781782904093358004259012783131519068556942373226031);
    e, x := Up0(n, e, x, 31026804441375728781910736262517853733312237591303124398479010334543908);
    e, x := Up1(n, e, x, 36291934579476949170961539441498659148733234289554665606497081457366218);
    e, x := Up1(n, e, x, 45426864663646518485482412603622655631572460763133737969073214472904836);
    e, x := Up0(n, e, x, 26468137062010504766510494899990372716311976644238514025378256550645878);
    e, x := Up3(n, e, x, 73723555997206006869384972328794329770427073036451337622245846298282533);
    e, x := Up0(n, e, x, 29758508075917093950376460550151922150999953377758899990487414539215855);
    e, x := Up3(n, e, x, 33032251797657976845775598082804288848602308872313537746715500337914680);
    e, x := Up3(n, e, x, 23106016685637634157287559334335934391370487219714175683276611963389156);
  }

  lemma Part236B2()
    ensures Reaches(74058212732561358302231226437062788676166966415465897661863160754340907, 2, 13622567329184829978,
                    70469177349291559466123681724612771667726699584267318722499984723657333)
  {
    hide Reaches;
    Part236B1();
    var n := 74058212732561358302231226437062788676166966415465897661863160754340907;
    var e, x := 3171751119, 23106016685637634157287559334335934391370487219714175683276611963389156;
    e, x := Up1(n, e, x, 55979328769682415423166058127506160050484147169866874315296139590696741);
    e, x := Up3(n, e, x, 27761516180245189731908187747824767962457452781687581946686976166293915);
    e, x := Up2(n, e, x, 62243176476028797547480952347273962206710983379796077722592821316367946);
    e, x := Up0(n, e, x, 71590560715488230603160546455438943176626670054473393316687045232831522);
    e, x := Up3(n, e, x, 73994299027674238557536821761741624074404976648766356356064316312414311);
    e, x := Up2(n, e, x, 20186061522064547348942138738928635052949347431942743397747040877464336);
    e, x := Up1(n, e, x, 58440526477421557842028399989200600975360531510958556328261883512183080);
    e, x := Up3(n, e, x, 56850440753119798199641765124701563093724562108599945471550834900632544);
    e, x := Up1(n, e, x, 51610221560379778677873092924641887428558216155829860483579101455328292);
    e, x := Up1(n, e, x, 7644206704861915064519872494262899263124054706753901718355019928171111);
    e, x := Up0(n, e, x, 44910072599201880858785016335765272683153853309518365827614176295667456);
    e, x := Up2(n, e, x, 44229501098471092128779605976169943203831069068326638942217283173370810);
    e, x := Up0(n, e, x, 64736048859960574996725171318638238837341298743207500270134321237311574);
    e, x := Up1(n, e, x, 73006098937535659217249858779868473560363143744827874117540793935541339);
    e, x := Up2(n, e, x, 59164004801848140152236676725967919273956568472762473385950375178216207);
    e, x := Up2(n, e, x, 70469177349291559466123681724612771667726699584267318722499984723657333);
  }

  lemma Part236B3()
    ensures Reaches(74058212732561358302231226437062788676166966415465897661863160754340907, 2,
            58508481166406911095678798057,
                    25367839317771031639952215701897139861415218974366781842116251919875393)
  {
    hide Reaches;
    Part236B2();
    var n := 74058212732561358302231226437062788676166966415465897661863160754340907;
    var e, x := 13622567329184829978, 70469177349291559466123681724612771667726699584267318722499984723657333;
    e, x := Up0(n, e, x, 12219301287136083619979772169428104279429169654296992171429375052505739);
    e, x := Up3(n, e, x, 55268776644369205451234458373855931073298096374039012089695711263703948);
    e, x := Up0(n, e, x, 4270266321051578943348609850947362855436106466744013275257027353441085);
    e, x := Up2(n, e, x, 54980755414433188203062458250353229448483829906751478486261111467667851);
    e, x := Up2(n, e, x, 65059046996379679682899910575007640085683652944613117515805467747006404);
    e, x := Up1(n, e, x, 63451802044238897392199271441770955419508672762410507456557591853977470);
    e, x := Up0(n, e, x, 41038390859567015992972922737202606252633949239260025002469908108295730);
    e, x := Up1(n, e, x, 17624207582733641917495387846056778294471677926149874945567454640532283);
    e, x := Up2(n, e, x, 61578077530096916426596978715402478932905687967287143836897864375537972);
    e, x := Up0(n, e, x, 10828997928446210701989189866324491273221686470919068671602815019785289);
    e, x := Up2(n, e, x, 47059771906714119819812480879258455447475740669393630153716347794740304);
    e, x := Up0(n, e, x, 68648931893065637410210464875532471739450541519771408167643509998449990);
    e, x := Up3(n, e, x, 44777293032195950306999229438824625693916416402529125060476520480059304);
    e, x := Up2(n, e, x, 69739347985785909195117120511593078001038509240396491072119825759284226);
    e, x := Up2(n, e, x, 8966701809750480175132281441372376453010733244796307400251428263928955);
    e, x := Up1(n, e, x, 25367839317771031639952215701897139861415218974366781842116251919875393);
  }

  lemma Part236B()
    ensures Reaches(74058212732561358302231226437062788676166966415465897661863160754340907, 2,
            981609426360740691344999861639072106,
                    69490809710348678725736597923071784769591275419387514694139338586948360)
  {
    hide Reaches;
    Part236B3();
    var n := 74058212732561358302231226437062788676166966415465897661863160754340907;
    var e, x := 58508481166406911095678798057, 25367839317771031639952215701897139861415218974366781842116251919875393;
    e, x := Up3(n, e, x, 10622552789254092636906058105188141289654609219000383430847022521194691);
    e, x := Up3(n, e, x, 21856358015838061538321139640202557757811906244077066571949230072250514);
    e, x := Up2(n, e, x, 37207812695334010458645991763120351975762241618636847401056575066841294);
    e, x := Up2(n, e, x, 65626805947523963538669627678002060436780939641818486051885986015610197);
    e, x := Up1(n, e, x, 22215998879008375740440568544676670894116847390171418840696984340495629);
    e, x := Up0(n, e, x, 593108134046836163611118372097765501214679492636961049514195218046251);
    e, x := Up2(n, e, x, 25128021495193710391433785416588563254141892544643471369982176932522359);
    e, x := Up1(n, e, x, 64430789838214670370977400022716497713195584758074789776176847535238085);
    e, x := Up1(n, e, x, 59871792106663572955832521242387634588680708476662779603162677650268597);
    e, x := Up2(n, e, x, 31696639904365753107769442767829799140366231137872339266966295574876487);
    e, x := Up2(n, e, x, 43289307772775068289359397777382943891461722110298613870449815488589255);
    e, x := Up2(n, e, x, 69490809710348678725736597923071784769591275419387514694139338586948360);
  }

  lemma Prime236()
    ensures Prime(74058212732561358302231226437062788676166966415465897661863160754340907)
  {
    hide Prime, Reaches, DividesAll;
    Whole236();
    SiftedIsPrime(353);
    Part236A();
    Divides(74058212732561358302231226437062788676166966415465897661863160754340907, 2,
            353,
            209796636636151156663544550813209033076960244803019540118592523383402,
            8562916886866218785688304546164188478888058893729309188831496247839076,
            37940283535957283147790493383286696582099159842122763948555891970476459);
    Prime116();
    Part236B();
    Divides(74058212732561358302231226437062788676166966415465897661863160754340907, 2,
            75445702479781427272750846543864801,
            981609426360740691344999861639072106,
            69490809710348678725736597923071784769591275419387514694139338586948360,
            70463328703800545008217672123162676565183935400628861884889913886334520);
    DividesBoth(74058212732561358302231226437062788676166966415465897661863160754340907, 353,
        75445702479781427272750846543864801);
    NoRoom(74058212732561358302231226437062788676166966415465897661863160754340907,
           26632332975362843827281048829984274753);
  }

  lemma HalfP1()
    ensures Reaches(57896044618658097711785492504343953926634992332820282019728792003956564819949, 2, 4294967295,
                    26842178458649787340962453003574671094533543717061574803129506058013583129781)
  {
    hide Reaches;
    var n := 57896044618658097711785492504343953926634992332820282019728792003956564819949;
    var e, x := Nothing(n, 2);
    e, x := Up3(n, e, x, 8);
    e, x := Up3(n, e, x, 32768);
    e, x := Up3(n, e, x, 9223372036854775808);
    e, x := Up3(n, e, x, 19);
    e, x := Up3(n, e, x, 1042568);
    e, x := Up3(n, e, x, 9451648239783810422571008);
    e, x := Up3(n, e, x, 5224276227137439182359211610032770964119227448329156370456386700117210870322);
    e, x := Up3(n, e, x, 57667402193205334524132346572890988529514358996637946074273776214954518058325);
    e, x := Up3(n, e, x, 41773579711171363526115061832776734394027191205387144658354332233763888087437);
    e, x := Up3(n, e, x, 31860177317140150806945610515978157008538745288633840599826077183006098902229);
    e, x := Up3(n, e, x, 37220419053942053202281425929749818891562230118522756619478076890995066343852);
    e, x := Up3(n, e, x, 14357806875099573081046010407345500900557142388859621890028323395882441450808);
    e, x := Up3(n, e, x, 8456664400796649213982160158192303565222228470151974305050350702246773000909);
    e, x := Up3(n, e, x, 1444992902726793028090455788455824656657439623120520683073984908815343121527);
    e, x := Up3(n, e, x, 31481322809643635092733215727019093627902277071797746415030516831487441729606);
    e, x := Up3(n, e, x, 26842178458649787340962453003574671094533543717061574803129506058013583129781);
  }

  lemma HalfP2()
    ensures Reaches(57896044618658097711785492504343953926634992332820282019728792003956564819949, 2,
            18446744073709551615,
                    18878952571897396674442432668174851814068411255301696874725003248685998027586)
  {
    hide Reaches;
    HalfP1();
    var n := 57896044618658097711785492504343953926634992332820282019728792003956564819949;
    var e, x := 4294967295, 26842178458649787340962453003574671094533543717061574803129506058013583129781;
    e, x := Up3(n, e, x, 1410276654374142921912072096561494027695175688319923564839723865256343965789);
    e, x := Up3(n, e, x, 2312173971283518761497399288637533573442699377561835361619694099549526195053);
    e, x := Up3(n, e, x, 4500455057296538258870812134262857057835079713243151331317076981750702941903);
    e, x := Up3(n, e, x, 40855687261085163679075598424383040827337295504513323885754385820034201474735);
    e, x := Up3(n, e, x, 37940261703003466530301850464572031464419938347212980071669803697540934661932);
    e, x := Up3(n, e, x, 38312950625439929102367916361458591974819898438434820790339388288940301753510);
    e, x := Up3(n, e, x, 46829877536710347127320434698448566838685447823836470715081022519073557726773);
    e, x := Up3(n, e, x, 57216950547371830068827719320242948460997140955201589226694955077452539901594);
    e, x := Up3(n, e, x, 29425705163516375894843110016508176480686115837392058736552579167725289780807);
    e, x := Up3(n, e, x, 33554756388950575406643830339888255401410403513173150599997540331253196160357);
    e, x := Up3(n, e, x, 14064963947811269298278524791691281423084908609845960596586683121720194887102);
    e, x := Up3(n, e, x, 21847452534710602092746359412823104712261255210105361772448459469926903743917);
    e, x := Up3(n, e, x, 3544437534908314905125170100574045874120208348111117397610725049021502447740);
    e, x := Up3(n, e, x, 22694371332599253447191450960592330978402329053668220499847134565853973622032);
    e, x := Up3(n, e, x, 40774605092474466487059636332982967235493057760401563919383642614545645829152);
    e, x := Up3(n, e, x, 18878952571897396674442432668174851814068411255301696874725003248685998027586);
  }

  lemma HalfP3()
    ensures Reaches(57896044618658097711785492504343953926634992332820282019728792003956564819949, 2,
            79228162514264337593543950335,
                    50474905824970365894909409390984680001117021966810417657380743844501021762936)
  {
    hide Reaches;
    HalfP2();
    var n := 57896044618658097711785492504343953926634992332820282019728792003956564819949;
    var e, x := 18446744073709551615, 18878952571897396674442432668174851814068411255301696874725003248685998027586;
    e, x := Up3(n, e, x, 46281085050630773963913766411004831667293261619053526625279778566314907641505);
    e, x := Up3(n, e, x, 10776410042155387628757347139278587990459279206029733971475795250528422943868);
    e, x := Up3(n, e, x, 32267931274891655478184199467643527553561737611723686052487006347161512829603);
    e, x := Up3(n, e, x, 34258166528311316488034424742641032338801523995662611775475450041611407899968);
    e, x := Up3(n, e, x, 6551952651523179037334401176720959874396649372538283057572150954033323362809);
    e, x := Up3(n, e, x, 21840033593278604262908027835695239214198655467837862420243244211695626839978);
    e, x := Up3(n, e, x, 43584484221788900868419546690254479977558121850951190428318500286667018333870);
    e, x := Up3(n, e, x, 20756486169383920521134455532562552711687687217901827738778514137285634944158);
    e, x := Up3(n, e, x, 34446819942962459076117508892498008554615060722037806425794218891933501941464);
    e, x := Up3(n, e, x, 48984009914529255597717947851481220773766393842112514106411440539177103850712);
    e, x := Up3(n, e, x, 839549009537373727335591448127933459387573416171681425111262846257465607395);
    e, x := Up3(n, e, x, 10206601475148846935039781527637194584781325524341657018546582116449603416692);
    e, x := Up3(n, e, x, 24829494668832271851873095263695645243787012425653556421762256145675278781242);
    e, x := Up3(n, e, x, 28386134145047664064908648067853568489164700854806897628919141988772787201647);
    e, x := Up3(n, e, x, 55660232023739941517405710433965571046517923154926197258950504889269991229746);
    e, x := Up3(n, e, x, 50474905824970365894909409390984680001117021966810417657380743844501021762936);
  }

  lemma HalfP4()
    ensures Reaches(57896044618658097711785492504343953926634992332820282019728792003956564819949, 2,
            340282366920938463463374607431768211455,
                    26963434268030124490232869225365333943046998147329985868172663616110233431931)
  {
    hide Reaches;
    HalfP3();
    var n := 57896044618658097711785492504343953926634992332820282019728792003956564819949;
    var e, x := 79228162514264337593543950335,
        50474905824970365894909409390984680001117021966810417657380743844501021762936;
    e, x := Up3(n, e, x, 34893493536391011707119872334858521129496918020628390137352446654800704427635);
    e, x := Up3(n, e, x, 54432116579986566612700064865178477388249008452809642039202947956959208982782);
    e, x := Up3(n, e, x, 44666734350811345786922297534185848357330186680870171487507256750286031869603);
    e, x := Up3(n, e, x, 57608036939302764840478145776034576230768319873591038614247645218099795254457);
    e, x := Up3(n, e, x, 56452777568112233575728564218974371806371177993011520015533434823606779550888);
    e, x := Up3(n, e, x, 8693388228197790815718534177035537785053224711574691503741616077445171268206);
    e, x := Up3(n, e, x, 49792237624548631371459520503827467480723489230450235332529824117671677405156);
    e, x := Up3(n, e, x, 21880558264494216808287980994218397563141933685170264459882187058272291026063);
    e, x := Up3(n, e, x, 1852334911467617730563258363249118600141597140885538955656229673690870877083);
    e, x := Up3(n, e, x, 56741858940553540454691345612168397481200062484931002208351244857929594532120);
    e, x := Up3(n, e, x, 23441663550800467214817254139361687330701016758839580700761892247398777612688);
    e, x := Up3(n, e, x, 55937530409946316548552502116686273223393472796871774714777090375113360366142);
    e, x := Up3(n, e, x, 30004323796572083792199736105378546854862298935002078911621058436625125242273);
    e, x := Up3(n, e, x, 17683968136273031964748761461046074121640974398427507673212257537224433714631);
    e, x := Up3(n, e, x, 11338079573254137144714295952580911299677830590163390051859627963489637121218);
    e, x := Up3(n, e, x, 26963434268030124490232869225365333943046998147329985868172663616110233431931);
  }

  lemma HalfP5()
    ensures Reaches(57896044618658097711785492504343953926634992332820282019728792003956564819949, 2,
            1461501637330902918203684832716283019655932542975,
                    41577931303125218655368411065379178664242088974509779353166293289040071305457)
  {
    hide Reaches;
    HalfP4();
    var n := 57896044618658097711785492504343953926634992332820282019728792003956564819949;
    var e, x := 340282366920938463463374607431768211455,
        26963434268030124490232869225365333943046998147329985868172663616110233431931;
    e, x := Up3(n, e, x, 7107064703472137553390016727696887278224065643217254122925776710931760452839);
    e, x := Up3(n, e, x, 50000476100785037372762746889064864080695006262063619269247590084856389364511);
    e, x := Up3(n, e, x, 46812062959751952380575244630234810940688005458028127061524926515372476693302);
    e, x := Up3(n, e, x, 33417327200782650993787628772606431437902672847704516142353609196254157350836);
    e, x := Up3(n, e, x, 13112761563863023931459458615335431701999506154879951249469996812584060497067);
    e, x := Up3(n, e, x, 20214254819784530476572656051887077550238535948296280650423414391220058472235);
    e, x := Up3(n, e, x, 31317987425793256789907905358765479205452620350800147189927333389226957110313);
    e, x := Up3(n, e, x, 14398822984063074768968153532697637190471276264929534688614638524962533306867);
    e, x := Up3(n, e, x, 40547459852214399804323473420694576591072346817955398647431362105468896192197);
    e, x := Up3(n, e, x, 27684301228299730442981507030630901095912202244823809002810756354766128710768);
    e, x := Up3(n, e, x, 38127182720244788537581039343329974557372141358442408506114334627016172570692);
    e, x := Up3(n, e, x, 5454410152077933777103100970173391160692099338506939472643174185754823698977);
    e, x := Up3(n, e, x, 21765073601240440394004195196733367356284140392914731226844435028259364975757);
    e, x := Up3(n, e, x, 21540161437867206792264745630437124108648831241490862309653559019023251050550);
    e, x := Up3(n, e, x, 9295663124364450797527547070745142724484968397426519232838479866529431499675);
    e, x := Up3(n, e, x, 41577931303125218655368411065379178664242088974509779353166293289040071305457);
  }

  lemma HalfP6()
    ensures Reaches(57896044618658097711785492504343953926634992332820282019728792003956564819949, 2,
            6277101735386680763835789423207666416102355444464034512895,
                    32059910633176193622138024243719773757257401337919911903483392576788485259672)
  {
    hide Reaches;
    HalfP5();
    var n := 57896044618658097711785492504343953926634992332820282019728792003956564819949;
    var e, x := 1461501637330902918203684832716283019655932542975,
        41577931303125218655368411065379178664242088974509779353166293289040071305457;
    e, x := Up3(n, e, x, 55590360218998282887189888048440386046650429025517689767088323422846948382925);
    e, x := Up3(n, e, x, 21363423181746877609111268711041542253138779060801629243052671443405792697453);
    e, x := Up3(n, e, x, 35579438349793358381572025108442492934664453576748305360961308541578088690388);
    e, x := Up3(n, e, x, 43360846569293993820275693050384192156330769926392333168517301831384209752435);
    e, x := Up3(n, e, x, 1536504363613701847894867300414741110172459555250118742995152291136358200299);
    e, x := Up3(n, e, x, 53241440335614123920049335849618705599788617803539401677470731327189273355240);
    e, x := Up3(n, e, x, 6065461000593967686201644147469699507884414012396859043024075587031478402964);
    e, x := Up3(n, e, x, 6194970277937707253775099527297108592051974592490823042763801755464669391818);
    e, x := Up3(n, e, x, 54365033985168141306022265729958169761829617159194845758540630505539836345465);
    e, x := Up3(n, e, x, 53502266011507298565676768324199732940023720279442518681700110239273703126729);
    e, x := Up3(n, e, x, 6528249132286365709654196922569572509716464893905265972235628165028866286878);
    e, x := Up3(n, e, x, 24023237773304088355367946030695448843319069214091389862021789217161946282946);
    e, x := Up3(n, e, x, 40976972857154150938827157254409068204129712880595484192193128742204960992790);
    e, x := Up3(n, e, x, 48311673985348507728741468902012948953142664038330626952387585498656526855541);
    e, x := Up3(n, e, x, 44543206194479786795328863844863295531809228891211781783131460436919471891318);
    e, x := Up3(n, e, x, 32059910633176193622138024243719773757257401337919911903483392576788485259672);
  }

  lemma HalfP7()
    ensures Reaches(57896044618658097711785492504343953926634992332820282019728792003956564819949, 2,
            26959946667150639794667015087019630673637144422540572481103610249215,
                    24605409678848788938025967347965514085894017404791575956843964561310096170520)
  {
    hide Reaches;
    HalfP6();
    var n := 57896044618658097711785492504343953926634992332820282019728792003956564819949;
    var e, x := 6277101735386680763835789423207666416102355444464034512895,
        32059910633176193622138024243719773757257401337919911903483392576788485259672;
    e, x := Up3(n, e, x, 48754557550952872105209550496347674417710959653730114307448477872931425810164);
    e, x := Up3(n, e, x, 38725988975554836836261693331247132583308376864819596228891641900046618530987);
    e, x := Up3(n, e, x, 43148221398861912654878150651583556894950920730774984615012326700886961205782);
    e, x := Up3(n, e, x, 32130093957348876535958107736349013334990574945634455035178054147542185674637);
    e, x := Up3(n, e, x, 5509472318170026184457828863391795017510754830936479629593488654910888123492);
    e, x := Up3(n, e, x, 31298399990674153193572642070113929186128749250418980644598906944843612558467);
    e, x := Up3(n, e, x, 6867356314802072500137672020365772398649811024958711628042637258408446576935);
    e, x := Up3(n, e, x, 27289357948726713611986542207589493182563159105075691984536234051570781506683);
    e, x := Up3(n, e, x, 44073974636539183643196518952896103138684389691110778399627147914726074797884);
    e, x := Up3(n, e, x, 3071949427213583281562656910526188114764181754740924459574672836798483880736);
    e, x := Up3(n, e, x, 3165891640717593200786762078156449118083566803391380297476050855428833748611);
    e, x := Up3(n, e, x, 38167929923336629992940764174428308519642977592094795664038841569520591249924);
    e, x := Up3(n, e, x, 11547632910069633913615370700207887367810604134713919823128354979068299091886);
    e, x := Up3(n, e, x, 4882997256204588887345417740635705617157621401990104841753515336715323289325);
    e, x := Up3(n, e, x, 56713486864942564343515026382452337645161272677378998056718354471378196670542);
    e, x := Up3(n, e, x, 24605409678848788938025967347965514085894017404791575956843964561310096170520);
  }

  lemma HalfP()
    ensures Reaches(57896044618658097711785492504343953926634992332820282019728792003956564819949, 2,
            28948022309329048855892746252171976963317496166410141009864396001978282409974,
                    57896044618658097711785492504343953926634992332820282019728792003956564819948)
  {
    hide Reaches;
    HalfP7();
    var n := 57896044618658097711785492504343953926634992332820282019728792003956564819949;
    var e, x := 26959946667150639794667015087019630673637144422540572481103610249215,
        24605409678848788938025967347965514085894017404791575956843964561310096170520;
    e, x := Up3(n, e, x, 12329658577085121505735788901738140674414910983404876297849933017120786593055);
    e, x := Up3(n, e, x, 47786050790763851049981906562182647077748863621709482674342791699566717530080);
    e, x := Up3(n, e, x, 16826699064328860228531004055853964690023742207467919279868379270196598769668);
    e, x := Up3(n, e, x, 37708960546153945843958973812618546261670618580507553614517327413904816963235);
    e, x := Up3(n, e, x, 20249007912788656877858290429492512521631358125394076339539349770885218897450);
    e, x := Up3(n, e, x, 5435299199213152975492301500219858938085329969184343786141514702871513181784);
    e, x := Up3(n, e, x, 51123978885619834460123720657013633389779939782597154962641759658222584675645);
    e, x := Up3(n, e, x, 54540094052611622470445204756022498502301992064615059872118586784666432192860);
    e, x := Up3(n, e, x, 3803914040724051894386236598260692734658987734458578662976073884998070765041);
    e, x := Up3(n, e, x, 17987939655220351027887281615378337919756346108173807249081199009637994796582);
    e, x := Up3(n, e, x, 15513182470649566372280220337745372463859220538938362347543710404034055407928);
    e, x := Up3(n, e, x, 25685400396258068827309542784701451615252568774064705527532856139406555789341);
    e, x := Up3(n, e, x, 57692109581687170544952182944730090749826224675958039702824471609347838771772);
    e, x := Up1(n, e, x, 38788602997682801834296285904666247971040529424372086091236406538540197302351);
    e, x := Up2(n, e, x, 57896044618658097711785492504343953926634992332820282019728792003956564819948);
  }

  lemma WholeP()
    ensures Reaches(57896044618658097711785492504343953926634992332820282019728792003956564819949, 2,
                    57896044618658097711785492504343953926634992332820282019728792003956564819948,
                    1)
  {
    hide Reaches;
    HalfP();
    var half := 28948022309329048855892746252171976963317496166410141009864396001978282409974;
    var minusOne := 57896044618658097711785492504343953926634992332820282019728792003956564819948;
    OneBit(57896044618658097711785492504343953926634992332820282019728792003956564819949, 2, half, minusOne, 0,
        minusOne * minusOne);
    Reduce(57896044618658097711785492504343953926634992332820282019728792003956564819949, 2, 2 * half,
        minusOne * minusOne, 1);
  }

  lemma PartP()
    ensures Reaches(57896044618658097711785492504343953926634992332820282019728792003956564819949, 2, 781764,
                    427094198651976259540344842774561673889945192655078505504941250475370961481)
  {
    hide Reaches;
    var n := 57896044618658097711785492504343953926634992332820282019728792003956564819949;
    var e, x := Nothing(n, 2);
    e, x := Up2(n, e, x, 4);
    e, x := Up3(n, e, x, 2048);
    e, x := Up3(n, e, x, 140737488355328);
    e, x := Up2(n, e, x, 1569275433846670190958947355801916604025588861116008628224);
    e, x := Up3(n, e, x, 14474011154664524427946373126085988481658748083205070504932198000989141206702);
    e, x := Up1(n, e, x, 19449452489080454700052938888178047022228942736806813491002641081120681299406);
    e, x := Up3(n, e, x, 10011112483763715096745842972409582215110234036302095062009100585929643265913);
    e, x := Up0(n, e, x, 13343768986571359007854455104042816243275199009921288930213888121862028233560);
    e, x := Up1(n, e, x, 6814271218530413793737419123678870252773648441814096715214653977322709480214);
    e, x := Up0(n, e, x, 427094198651976259540344842774561673889945192655078505504941250475370961481);
  }

  lemma PrimeP()
    ensures Prime(57896044618658097711785492504343953926634992332820282019728792003956564819949)
  {
    hide Prime, Reaches, DividesAll;
    WholeP();
    Prime236();
    PartP();
    Divides(57896044618658097711785492504343953926634992332820282019728792003956564819949, 2,
            74058212732561358302231226437062788676166966415465897661863160754340907,
            781764,
            427094198651976259540344842774561673889945192655078505504941250475370961481,
            55540832096118778044507775605005710249233119951144946814680141076505643269084);
    NoRoom(57896044618658097711785492504343953926634992332820282019728792003956564819949,
           74058212732561358302231226437062788676166966415465897661863160754340907);
  }

  lemma Whole12()
    ensures Reaches(3797, 2, 3796,
                    1)
  {
    hide Reaches;
    var n := 3797;
    var e, x := Nothing(n, 2);
    e, x := Up3(n, e, x, 8);
    e, x := Up2(n, e, x, 1196);
    e, x := Up3(n, e, x, 680);
    e, x := Up1(n, e, x, 1410);
    e, x := Up1(n, e, x, 3055);
    e, x := Up0(n, e, x, 1);
  }

  lemma Part12()
    ensures Reaches(3797, 2, 52,
                    3565)
  {
    hide Reaches;
    var n := 3797;
    var e, x := Nothing(n, 2);
    e, x := Up3(n, e, x, 8);
    e, x := Up1(n, e, x, 598);
    e, x := Up0(n, e, x, 3565);
  }

  lemma Prime12()
    ensures Prime(3797)
  {
    hide Prime, Reaches, DividesAll;
    Whole12();
    SiftedIsPrime(73);
    Part12();
    Divides(3797, 2,
            73,
            52,
            3565,
            3357);
    NoRoom(3797,
           73);
  }

  lemma Whole20()
    ensures Reaches(531581, 2, 531580,
                    1)
  {
    hide Reaches;
    var n := 531581;
    var e, x := Nothing(n, 2);
    e, x := Up2(n, e, x, 4);
    e, x := Up0(n, e, x, 256);
    e, x := Up0(n, e, x, 324397);
    e, x := Up1(n, e, x, 37133);
    e, x := Up3(n, e, x, 12658);
    e, x := Up0(n, e, x, 380818);
    e, x := Up1(n, e, x, 409243);
    e, x := Up3(n, e, x, 360778);
    e, x := Up3(n, e, x, 403372);
    e, x := Up0(n, e, x, 1);
  }

  lemma Part20()
    ensures Reaches(531581, 2, 140,
                    32301)
  {
    hide Reaches;
    var n := 531581;
    var e, x := Nothing(n, 2);
    e, x := Up2(n, e, x, 4);
    e, x := Up0(n, e, x, 256);
    e, x := Up3(n, e, x, 468852);
    e, x := Up0(n, e, x, 32301);
  }

  lemma Prime20()
    ensures Prime(531581)
  {
    hide Prime, Reaches, DividesAll;
    Whole20();
    Prime12();
    Part20();
    Divides(531581, 2,
            3797,
            140,
            32301,
            50673);
    NoRoom(531581,
           3797);
  }

  lemma Part12xA()
    ensures Reaches(2551, 2, 510,
                    1501)
  {
    hide Reaches;
    var n := 2551;
    var e, x := Nothing(n, 2);
    e, x := Up1(n, e, x, 2);
    e, x := Up3(n, e, x, 128);
    e, x := Up3(n, e, x, 828);
    e, x := Up3(n, e, x, 1336);
    e, x := Up2(n, e, x, 1501);
  }

  lemma Rest12x()
    ensures Reaches(2551, 1501, 5,
                    1)
  {
    hide Reaches;
    var n := 2551;
    var e, x := Nothing(n, 1501);
    e, x := One(n, 1501, e, x, 1, 1501);
    e, x := One(n, 1501, e, x, 0, 468);
    e, x := One(n, 1501, e, x, 1, 1);
  }

  lemma Whole12x()
    ensures Reaches(2551, 2,
                    2550,
                    1)
  {
    hide Reaches;
    Part12xA();
    Rest12x();
    Raised(2551, 2,
           510,
           1501, 5, 1);
  }

  lemma Part12xB()
    ensures Reaches(2551, 2, 150,
                    2089)
  {
    hide Reaches;
    var n := 2551;
    var e, x := Nothing(n, 2);
    e, x := Up2(n, e, x, 4);
    e, x := Up1(n, e, x, 512);
    e, x := Up1(n, e, x, 1972);
    e, x := Up2(n, e, x, 2089);
  }

  lemma Prime12x()
    ensures Prime(2551)
  {
    hide Prime, Reaches, DividesAll;
    Whole12x();
    SiftedIsPrime(5);
    Part12xA();
    Divides(2551, 2,
            5,
            510,
            1501,
            1784);
    SiftedIsPrime(17);
    Part12xB();
    Divides(2551, 2,
            17,
            150,
            2089,
            1135);
    DividesBoth(2551, 5, 17);
    NoRoom(2551,
           85);
  }

  lemma Whole21()
    ensures Reaches(1224481, 2, 1224480,
                    1)
  {
    hide Reaches;
    var n := 1224481;
    var e, x := Nothing(n, 2);
    e, x := Up1(n, e, x, 2);
    e, x := Up0(n, e, x, 16);
    e, x := Up2(n, e, x, 262144);
    e, x := Up2(n, e, x, 1142901);
    e, x := Up2(n, e, x, 499249);
    e, x := Up3(n, e, x, 661650);
    e, x := Up3(n, e, x, 731565);
    e, x := Up0(n, e, x, 932127);
    e, x := Up2(n, e, x, 1087294);
    e, x := Up0(n, e, x, 1);
    e, x := Up0(n, e, x, 1);
  }

  lemma Part21()
    ensures Reaches(1224481, 2, 480,
                    921659)
  {
    hide Reaches;
    var n := 1224481;
    var e, x := Nothing(n, 2);
    e, x := Up1(n, e, x, 2);
    e, x := Up3(n, e, x, 128);
    e, x := Up2(n, e, x, 1096468);
    e, x := Up0(n, e, x, 585321);
    e, x := Up0(n, e, x, 921659);
  }

  lemma Prime21()
    ensures Prime(1224481)
  {
    hide Prime, Reaches, DividesAll;
    Whole21();
    Prime12x();
    Part21();
    Divides(1224481, 2,
            2551,
            480,
            921659,
            1100631);
    NoRoom(1224481,
           2551);
  }

  lemma Part51xA()
    ensures Reaches(1257559732178653, 2, 2365697292,
                    1139842034583224)
  {
    hide Reaches;
    var n := 1257559732178653;
    var e, x := Nothing(n, 2);
    e, x := Up2(n, e, x, 4);
    e, x := Up0(n, e, x, 256);
    e, x := Up3(n, e, x, 34359738368);
    e, x := Up1(n, e, x, 1034265417830448);
    e, x := Up0(n, e, x, 1004589674489045);
    e, x := Up0(n, e, x, 191049562566899);
    e, x := Up0(n, e, x, 303718770876872);
    e, x := Up1(n, e, x, 1244459604607033);
    e, x := Up2(n, e, x, 65956866483123);
    e, x := Up2(n, e, x, 1105728802871775);
    e, x := Up3(n, e, x, 866017303586522);
    e, x := Up1(n, e, x, 24704258335377);
    e, x := Up0(n, e, x, 783499602899019);
    e, x := Up0(n, e, x, 1121547834025745);
    e, x := Up3(n, e, x, 514303799075821);
    e, x := Up0(n, e, x, 1139842034583224);
  }

  lemma Rest51x1()
    ensures Reaches(1257559732178653, 1139842034583224, 33223,
                    190863417531040)
  {
    hide Reaches;
    var n := 1257559732178653;
    var e, x := Nothing(n, 1139842034583224);
    e, x := One(n, 1139842034583224, e, x, 1, 1139842034583224);
    e, x := One(n, 1139842034583224, e, x, 0, 1139977755025461);
    e, x := One(n, 1139842034583224, e, x, 0, 192395673674192);
    e, x := One(n, 1139842034583224, e, x, 0, 658053996960579);
    e, x := One(n, 1139842034583224, e, x, 0, 543127140101466);
    e, x := One(n, 1139842034583224, e, x, 0, 1063224506480868);
    e, x := One(n, 1139842034583224, e, x, 0, 1252138906579787);
    e, x := One(n, 1139842034583224, e, x, 1, 1216608398631704);
    e, x := One(n, 1139842034583224, e, x, 1, 1063019505097145);
    e, x := One(n, 1139842034583224, e, x, 1, 293983316432057);
    e, x := One(n, 1139842034583224, e, x, 0, 851973636416819);
    e, x := One(n, 1139842034583224, e, x, 0, 752171299039830);
    e, x := One(n, 1139842034583224, e, x, 0, 405881082464238);
    e, x := One(n, 1139842034583224, e, x, 1, 259249366487887);
    e, x := One(n, 1139842034583224, e, x, 1, 659687457177174);
    e, x := One(n, 1139842034583224, e, x, 1, 190863417531040);
  }

  lemma Rest51x()
    ensures Reaches(1257559732178653, 1139842034583224, 531581,
                    1)
  {
    hide Reaches;
    Rest51x1();
    var n := 1257559732178653;
    var e, x := 33223, 190863417531040;
    e, x := One(n, 1139842034583224, e, x, 1, 1104034023393971);
    e, x := One(n, 1139842034583224, e, x, 1, 31802007860341);
    e, x := One(n, 1139842034583224, e, x, 0, 887747802346545);
    e, x := One(n, 1139842034583224, e, x, 1, 1);
  }

  lemma Whole51x()
    ensures Reaches(1257559732178653, 2,
                    1257559732178652,
                    1)
  {
    hide Reaches;
    Part51xA();
    Rest51x();
    Raised(1257559732178653, 2,
           2365697292,
           1139842034583224, 531581, 1);
  }

  lemma Part51xB()
    ensures Reaches(1257559732178653, 2, 1027014492,
                    1252739704402215)
  {
    hide Reaches;
    var n := 1257559732178653;
    var e, x := Nothing(n, 2);
    e, x := Up3(n, e, x, 8);
    e, x := Up3(n, e, x, 32768);
    e, x := Up1(n, e, x, 736020130223003);
    e, x := Up0(n, e, x, 769983143964867);
    e, x := Up3(n, e, x, 285572012690516);
    e, x := Up1(n, e, x, 437227538966574);
    e, x := Up2(n, e, x, 1228761888558648);
    e, x := Up3(n, e, x, 704972560008195);
    e, x := Up3(n, e, x, 441172771460247);
    e, x := Up3(n, e, x, 790812897363870);
    e, x := Up3(n, e, x, 405070757515962);
    e, x := Up1(n, e, x, 459073045152463);
    e, x := Up1(n, e, x, 727396395397650);
    e, x := Up3(n, e, x, 227252455921440);
    e, x := Up0(n, e, x, 1252739704402215);
  }

  lemma Prime51x()
    ensures Prime(1257559732178653)
  {
    hide Prime, Reaches, DividesAll;
    Whole51x();
    Prime20();
    Part51xA();
    Divides(1257559732178653, 2,
            531581,
            2365697292,
            1139842034583224,
            212927577457398);
    Prime21();
    Part51xB();
    Divides(1257559732178653, 2,
            1224481,
            1027014492,
            1252739704402215,
            790900187493841);
    DividesBoth(1257559732178653, 531581, 1224481);
    NoRoom(1257559732178653,
           650910834461);
  }

  lemma Whole621()
    ensures Reaches(4434155615661930479, 2, 4129629224,
                    2090434687995528713)
  {
    hide Reaches;
    var n := 4434155615661930479;
    var e, x := Nothing(n, 2);
    e, x := Up3(n, e, x, 8);
    e, x := Up3(n, e, x, 32768);
    e, x := Up1(n, e, x, 2305843009213693952);
    e, x := Up2(n, e, x, 204768209475427835);
    e, x := Up0(n, e, x, 3050627321788313254);
    e, x := Up2(n, e, x, 1935425468705481176);
    e, x := Up1(n, e, x, 4328087346548845106);
    e, x := Up1(n, e, x, 626811198418467150);
    e, x := Up0(n, e, x, 2064976115756946340);
    e, x := Up2(n, e, x, 3790923968203188197);
    e, x := Up1(n, e, x, 3473324945394478167);
    e, x := Up0(n, e, x, 419060351845740148);
    e, x := Up0(n, e, x, 2672427657744952121);
    e, x := Up2(n, e, x, 1943396584785796168);
    e, x := Up2(n, e, x, 4094416571240577390);
    e, x := Up0(n, e, x, 2090434687995528713);
  }

  lemma Whole62()
    ensures Reaches(4434155615661930479, 2, 4434155615661930478,
                    1)
  {
    hide Reaches;
    Whole621();
    var n := 4434155615661930479;
    var e, x := 4129629224, 2090434687995528713;
    e, x := Up0(n, e, x, 2181897489167196893);
    e, x := Up3(n, e, x, 1327773830266042112);
    e, x := Up2(n, e, x, 2339946899801492322);
    e, x := Up1(n, e, x, 438753604342861316);
    e, x := Up1(n, e, x, 4325699182956089110);
    e, x := Up1(n, e, x, 68003959009969476);
    e, x := Up1(n, e, x, 866027866951847544);
    e, x := Up0(n, e, x, 928338760317279302);
    e, x := Up3(n, e, x, 3448733780814246489);
    e, x := Up1(n, e, x, 1708688649280096317);
    e, x := Up3(n, e, x, 3144125740380022627);
    e, x := Up3(n, e, x, 4268737640474751518);
    e, x := Up2(n, e, x, 3769637184447267368);
    e, x := Up3(n, e, x, 897678727087133997);
    e, x := Up2(n, e, x, 1);
  }

  lemma Part62()
    ensures Reaches(4434155615661930479, 2, 3526,
                    415787812636281767)
  {
    hide Reaches;
    var n := 4434155615661930479;
    var e, x := Nothing(n, 2);
    e, x := Up3(n, e, x, 8);
    e, x := Up1(n, e, x, 8192);
    e, x := Up3(n, e, x, 36028797018963968);
    e, x := Up0(n, e, x, 1418984147305173989);
    e, x := Up1(n, e, x, 2194920277261642361);
    e, x := Up2(n, e, x, 415787812636281767);
  }

  lemma Prime62()
    ensures Prime(4434155615661930479)
  {
    hide Prime, Reaches, DividesAll;
    Whole62();
    Prime51x();
    Part62();
    Divides(4434155615661930479, 2,
            1257559732178653,
            3526,
            415787812636281767,
            1010501025739283171);
    NoRoom(4434155615661930479,
           1257559732178653);
  }

  lemma Whole881()
    ensures Reaches(172054593956031949258510691, 2, 2387737146,
                    119267517564558213077754904)
  {
    hide Reaches;
    var n := 172054593956031949258510691;
    var e, x := Nothing(n, 2);
    e, x := Up2(n, e, x, 4);
    e, x := Up0(n, e, x, 256);
    e, x := Up3(n, e, x, 34359738368);
    e, x := Up2(n, e, x, 16629868878882634406364437);
    e, x := Up1(n, e, x, 4289815693316360527797319);
    e, x := Up1(n, e, x, 161937696246404929504051923);
    e, x := Up0(n, e, x, 50130339001185226473878114);
    e, x := Up1(n, e, x, 55958470222262333125651974);
    e, x := Up3(n, e, x, 92208385878681490415511769);
    e, x := Up3(n, e, x, 28564586967552342608609719);
    e, x := Up2(n, e, x, 100977994980450929754846128);
    e, x := Up2(n, e, x, 96050729320176486892776781);
    e, x := Up0(n, e, x, 11413594539312451538153147);
    e, x := Up3(n, e, x, 133885302935231773295790203);
    e, x := Up2(n, e, x, 4660513788403658342194173);
    e, x := Up2(n, e, x, 119267517564558213077754904);
  }

  lemma Whole882()
    ensures Reaches(172054593956031949258510691, 2, 10255252954723355129,
                    131640696559808112041343280)
  {
    hide Reaches;
    Whole881();
    var n := 172054593956031949258510691;
    var e, x := 2387737146, 119267517564558213077754904;
    e, x := Up1(n, e, x, 95459349180429378164076);
    e, x := Up0(n, e, x, 166968813139647092558090065);
    e, x := Up2(n, e, x, 57861796522635521682388178);
    e, x := Up0(n, e, x, 128196126438500325411492891);
    e, x := Up0(n, e, x, 37946554125071460122040136);
    e, x := Up0(n, e, x, 22337541034681035881423099);
    e, x := Up3(n, e, x, 14438778751472272441414191);
    e, x := Up3(n, e, x, 73957778471294336128515633);
    e, x := Up2(n, e, x, 63015141429298263379625806);
    e, x := Up0(n, e, x, 167681491909110434518744243);
    e, x := Up2(n, e, x, 123331931473104187824361417);
    e, x := Up1(n, e, x, 22058825189248436191712331);
    e, x := Up3(n, e, x, 63871845798043103345152141);
    e, x := Up3(n, e, x, 78424465505986826705379642);
    e, x := Up2(n, e, x, 129060605540996093058839875);
    e, x := Up1(n, e, x, 131640696559808112041343280);
  }

  lemma Whole88()
    ensures Reaches(172054593956031949258510691, 2, 172054593956031949258510690,
                    1)
  {
    hide Reaches;
    Whole882();
    var n := 172054593956031949258510691;
    var e, x := 10255252954723355129, 131640696559808112041343280;
    e, x := Up3(n, e, x, 107603859062788066169390107);
    e, x := Up1(n, e, x, 43880813624530125528461809);
    e, x := Up3(n, e, x, 60147213792478197843894463);
    e, x := Up2(n, e, x, 124590959096109963656487648);
    e, x := Up1(n, e, x, 56901804737414909314821581);
    e, x := Up1(n, e, x, 56359529941164544335317704);
    e, x := Up0(n, e, x, 163971234199517154342589839);
    e, x := Up1(n, e, x, 62986063444089396794631704);
    e, x := Up1(n, e, x, 132520914449198278749135766);
    e, x := Up2(n, e, x, 25865633804477598663034548);
    e, x := Up0(n, e, x, 42203025079099066766622177);
    e, x := Up2(n, e, x, 1);
  }

  lemma Part88()
    ensures Reaches(172054593956031949258510691, 2, 38802110,
                    81982237619807054769897707)
  {
    hide Reaches;
    var n := 172054593956031949258510691;
    var e, x := Nothing(n, 2);
    e, x := Up2(n, e, x, 4);
    e, x := Up1(n, e, x, 512);
    e, x := Up1(n, e, x, 137438953472);
    e, x := Up0(n, e, x, 31984044512296906456259822);
    e, x := Up0(n, e, x, 19808387174203048784497920);
    e, x := Up0(n, e, x, 140535356440195322503150377);
    e, x := Up1(n, e, x, 118875755576714418193740050);
    e, x := Up0(n, e, x, 90133693166330921620135190);
    e, x := Up2(n, e, x, 66351917947308499425261398);
    e, x := Up2(n, e, x, 167480910592361093104214314);
    e, x := Up3(n, e, x, 29295608793347465632114613);
    e, x := Up3(n, e, x, 114262896645587233754028454);
    e, x := Up2(n, e, x, 81982237619807054769897707);
  }

  lemma Prime88()
    ensures Prime(172054593956031949258510691)
  {
    hide Prime, Reaches, DividesAll;
    Whole88();
    Prime62();
    Part88();
    Divides(172054593956031949258510691, 2,
            4434155615661930479,
            38802110,
            81982237619807054769897707,
            154275350521713489305385904);
    NoRoom(172054593956031949258510691,
           4434155615661930479);
  }

  lemma Whole1341()
    ensures Reaches(19757330305831588566944191468367130476339, 2, 3896446367,
                    10950042474005030808164944435227137972905)
  {
    hide Reaches;
    var n := 19757330305831588566944191468367130476339;
    var e, x := Nothing(n, 2);
    e, x := Up3(n, e, x, 8);
    e, x := Up2(n, e, x, 16384);
    e, x := Up2(n, e, x, 288230376151711744);
    e, x := Up0(n, e, x, 1619361847007976702014523425326475170303);
    e, x := Up0(n, e, x, 11703182838014489695100769160889534803008);
    e, x := Up3(n, e, x, 8186063759360150637770811242217047780628);
    e, x := Up3(n, e, x, 13336465597306171292088369112389604199884);
    e, x := Up3(n, e, x, 10392783780435703415783569069555303727337);
    e, x := Up0(n, e, x, 8445612247177216603463075118926881974291);
    e, x := Up0(n, e, x, 5342816821726778074614170052046377125079);
    e, x := Up3(n, e, x, 3978678905118092496381558421918923565856);
    e, x := Up1(n, e, x, 4175370477986640217187608120925983640126);
    e, x := Up2(n, e, x, 2899717532777486813747096178095641080961);
    e, x := Up1(n, e, x, 15326265273001920157321719593109806324053);
    e, x := Up3(n, e, x, 436537712718503123566775228154779404944);
    e, x := Up3(n, e, x, 10950042474005030808164944435227137972905);
  }

  lemma Whole1342()
    ensures Reaches(19757330305831588566944191468367130476339, 2, 16735109718825237545,
                    11676694876518579601243487210961073228608)
  {
    hide Reaches;
    Whole1341();
    var n := 19757330305831588566944191468367130476339;
    var e, x := 3896446367, 10950042474005030808164944435227137972905;
    e, x := Up1(n, e, x, 12342179655867855468476310845060126376627);
    e, x := Up3(n, e, x, 15728154782787925552120978473084188800907);
    e, x := Up0(n, e, x, 16954463015510559380800672376034476808091);
    e, x := Up3(n, e, x, 3602777628843355901757948682728231594425);
    e, x := Up3(n, e, x, 4952337138585441474911418425578853699533);
    e, x := Up0(n, e, x, 3074910640844818053279930998090810043712);
    e, x := Up0(n, e, x, 7463426772326548444198858830457048511586);
    e, x := Up3(n, e, x, 17012444883971741020900742563841058082800);
    e, x := Up3(n, e, x, 10760604004700830034263621211515256297497);
    e, x := Up3(n, e, x, 1832876295288540002267869300868821605625);
    e, x := Up3(n, e, x, 18858767871530106537055385973192607598252);
    e, x := Up0(n, e, x, 8390565137055451058771314261375179903585);
    e, x := Up0(n, e, x, 15381213368278193359867389444171394377860);
    e, x := Up2(n, e, x, 858000744963162942060994796890207168808);
    e, x := Up2(n, e, x, 15103470954901421376513216613316169510794);
    e, x := Up1(n, e, x, 11676694876518579601243487210961073228608);
  }

  lemma Whole1343()
    ensures Reaches(19757330305831588566944191468367130476339, 2, 71876748937326150796958941894,
                    14375054909927868804190912809347669272163)
  {
    hide Reaches;
    Whole1342();
    var n := 19757330305831588566944191468367130476339;
    var e, x := 16735109718825237545, 11676694876518579601243487210961073228608;
    e, x := Up1(n, e, x, 8612688314379037259666025456862420023711);
    e, x := Up2(n, e, x, 435705108150346903965159130541433816400);
    e, x := Up2(n, e, x, 216270484648483705049703522717080485061);
    e, x := Up0(n, e, x, 5149350621479649566232555868905117386366);
    e, x := Up1(n, e, x, 1172131063560488075419871862789463466837);
    e, x := Up3(n, e, x, 14811579295750740854449310040939677766842);
    e, x := Up1(n, e, x, 13960060100916944636366497489440175146031);
    e, x := Up2(n, e, x, 10922988966528132202468292568542791838468);
    e, x := Up3(n, e, x, 5397444497224535627262680516229718100362);
    e, x := Up0(n, e, x, 14255677331121657048233458658898316659536);
    e, x := Up0(n, e, x, 16180048278757857621174426190295818586755);
    e, x := Up2(n, e, x, 3673914295162933430005467107630022244458);
    e, x := Up3(n, e, x, 3227133556061120444171020980690081917399);
    e, x := Up0(n, e, x, 1682996929309808442595278090651632956112);
    e, x := Up1(n, e, x, 4180692966765390086900430127720285295401);
    e, x := Up2(n, e, x, 14375054909927868804190912809347669272163);
  }

  lemma Whole1344()
    ensures Reaches(19757330305831588566944191468367130476339, 2, 308708286028618571358502991693236413692,
                    5918703698850793400733836064887586253145)
  {
    hide Reaches;
    Whole1343();
    var n := 19757330305831588566944191468367130476339;
    var e, x := 71876748937326150796958941894, 14375054909927868804190912809347669272163;
    e, x := Up3(n, e, x, 16391378967931793004839352111002982515788);
    e, x := Up1(n, e, x, 14235383532233750166484336876146357718523);
    e, x := Up3(n, e, x, 17586164952392367219799354506158110237796);
    e, x := Up3(n, e, x, 524849565703421183270312505587171094782);
    e, x := Up0(n, e, x, 12263539898472494077194558563500777702895);
    e, x := Up0(n, e, x, 15683757686931630381278583322938517589512);
    e, x := Up3(n, e, x, 14863274210456896743096292734764081646874);
    e, x := Up0(n, e, x, 8772235075335678664098979803506257989067);
    e, x := Up0(n, e, x, 758198465794860330415470502304657237140);
    e, x := Up2(n, e, x, 5315728706825655226922789919026905336973);
    e, x := Up1(n, e, x, 11211437261921008878652227811551908667984);
    e, x := Up0(n, e, x, 957669989516387990413462810197008700448);
    e, x := Up3(n, e, x, 7308133757857051608325150864185739821507);
    e, x := Up3(n, e, x, 11166573888284832482162356906566671818211);
    e, x := Up3(n, e, x, 1228861237180856371139865819936152987614);
    e, x := Up0(n, e, x, 5918703698850793400733836064887586253145);
  }

  lemma Whole134()
    ensures Reaches(19757330305831588566944191468367130476339, 2, 19757330305831588566944191468367130476338,
                    1)
  {
    hide Reaches;
    Whole1344();
    var n := 19757330305831588566944191468367130476339;
    var e, x := 308708286028618571358502991693236413692, 5918703698850793400733836064887586253145;
    e, x := Up3(n, e, x, 19084947610355070521900031989049745363648);
    e, x := Up0(n, e, x, 18290544821388317092614628490158416946687);
    e, x := Up2(n, e, x, 1);
  }

  lemma Part1341()
    ensures Reaches(19757330305831588566944191468367130476339, 2, 1752193467,
                    5559330094633165847650652553677567736791)
  {
    hide Reaches;
    var n := 19757330305831588566944191468367130476339;
    var e, x := Nothing(n, 2);
    e, x := Up1(n, e, x, 2);
    e, x := Up2(n, e, x, 64);
    e, x := Up2(n, e, x, 67108864);
    e, x := Up0(n, e, x, 20282409603651670423947251286016);
    e, x := Up1(n, e, x, 19721272643449736927818165121131915651915);
    e, x := Up3(n, e, x, 19523825019163716789559465115755042913239);
    e, x := Up0(n, e, x, 18129074954164426131222341246417038296043);
    e, x := Up0(n, e, x, 16983469284660113529419339998214789416117);
    e, x := Up1(n, e, x, 164580144388749734687458214494025342198);
    e, x := Up1(n, e, x, 3503720168317033537504664039577593350780);
    e, x := Up2(n, e, x, 4067196661299211085214309862462615068967);
    e, x := Up1(n, e, x, 3958465358828108782955647323664437892612);
    e, x := Up2(n, e, x, 9519791704869126618125401996451058285890);
    e, x := Up3(n, e, x, 12510372665995464893132709347956518793016);
    e, x := Up2(n, e, x, 14696419350991820950982570575210186715154);
    e, x := Up3(n, e, x, 5559330094633165847650652553677567736791);
  }

  lemma Part134()
    ensures Reaches(19757330305831588566944191468367130476339, 2, 114831751082918,
                    9148758478138211201771971577098600188172)
  {
    hide Reaches;
    Part1341();
    var n := 19757330305831588566944191468367130476339;
    var e, x := 1752193467, 5559330094633165847650652553677567736791;
    e, x := Up1(n, e, x, 6293122669717138753539957413292806374399);
    e, x := Up3(n, e, x, 5251203743877784770365842570837209422886);
    e, x := Up0(n, e, x, 11630358414123007096396431092496607988532);
    e, x := Up3(n, e, x, 18525015456028222876042134081102116080243);
    e, x := Up2(n, e, x, 8605839234462744138583551664326542235592);
    e, x := Up2(n, e, x, 5592002592978128606989292496417672317871);
    e, x := Up1(n, e, x, 5380239711509991466164012245749058765940);
    e, x := Up2(n, e, x, 9148758478138211201771971577098600188172);
  }

  lemma Prime134()
    ensures Prime(19757330305831588566944191468367130476339)
  {
    hide Prime, Reaches, DividesAll;
    Whole134();
    Prime88();
    Part134();
    Divides(19757330305831588566944191468367130476339, 2,
            172054593956031949258510691,
            114831751082918,
            9148758478138211201771971577098600188172,
            16371654433361644093796961727196399386194);
    NoRoom(19757330305831588566944191468367130476339,
           172054593956031949258510691);
  }

  lemma Whole1381()
    ensures Reaches(276602624281642239937218680557139826668747, 2, 3409390571,
                    232179462166430805108443018569214981533531)
  {
    hide Reaches;
    var n := 276602624281642239937218680557139826668747;
    var e, x := Nothing(n, 2);
    e, x := Up3(n, e, x, 8);
    e, x := Up0(n, e, x, 4096);
    e, x := Up2(n, e, x, 1125899906842624);
    e, x := Up3(n, e, x, 70353966269710811067824481980038174682807);
    e, x := Up0(n, e, x, 156582828171149672818525621127440707882630);
    e, x := Up3(n, e, x, 174027431430060482746779183325769382022478);
    e, x := Up1(n, e, x, 109928747843697709402756356406844733151850);
    e, x := Up3(n, e, x, 45192329780444293748055185797388162206803);
    e, x := Up0(n, e, x, 179318225697468380159041016549542288519969);
    e, x := Up2(n, e, x, 185627809385704545742869161440404559835132);
    e, x := Up2(n, e, x, 191943484231664255973159830003377270161062);
    e, x := Up3(n, e, x, 250745098536287159231538567699286758744833);
    e, x := Up3(n, e, x, 143044699768437632002074887302145173358608);
    e, x := Up2(n, e, x, 217622382134961419039905059263235646118126);
    e, x := Up2(n, e, x, 101956565890192115988601486640438365066449);
    e, x := Up3(n, e, x, 232179462166430805108443018569214981533531);
  }

  lemma Whole1382()
    ensures Reaches(276602624281642239937218680557139826668747, 2, 14643221003972082852,
                    230995144897712490814626354204924874212905)
  {
    hide Reaches;
    Whole1381();
    var n := 276602624281642239937218680557139826668747;
    var e, x := 3409390571, 232179462166430805108443018569214981533531;
    e, x := Up2(n, e, x, 169203232511839421241940569827660101470259);
    e, x := Up0(n, e, x, 222538270137709186403989005634748337356328);
    e, x := Up1(n, e, x, 203053551521260696669200178733578858358763);
    e, x := Up1(n, e, x, 122935924436072566902350157573862435343924);
    e, x := Up1(n, e, x, 78222396131556472821117932889100821178744);
    e, x := Up0(n, e, x, 140045514475016996126235836163122465818260);
    e, x := Up2(n, e, x, 71527553180435404333214180810588199999093);
    e, x := Up3(n, e, x, 206435616331346379784669892916509390225994);
    e, x := Up1(n, e, x, 75289930501705680228100779136444365782908);
    e, x := Up3(n, e, x, 134674830741160024858462214123855150817382);
    e, x := Up3(n, e, x, 48600679529942174390987488114058095134462);
    e, x := Up0(n, e, x, 212155371055178793120292836638250788250906);
    e, x := Up2(n, e, x, 149457686695183284197034547590001369106938);
    e, x := Up2(n, e, x, 44591351396097192702425332365621155159922);
    e, x := Up1(n, e, x, 252780424058245930244344781875723953251504);
    e, x := Up0(n, e, x, 230995144897712490814626354204924874212905);
  }

  lemma Whole1383()
    ensures Reaches(276602624281642239937218680557139826668747, 2, 62892155320160381947339074158,
                    97773670139190902901898330855586316137914)
  {
    hide Reaches;
    Whole1382();
    var n := 276602624281642239937218680557139826668747;
    var e, x := 14643221003972082852, 230995144897712490814626354204924874212905;
    e, x := Up0(n, e, x, 158661503378933536954813767050257900540457);
    e, x := Up3(n, e, x, 239045287360052269396496326669176533226135);
    e, x := Up2(n, e, x, 276309912735515660738814925952017486381984);
    e, x := Up3(n, e, x, 157173172429815976039245107952374412410168);
    e, x := Up1(n, e, x, 249973321930109328718430516736547085235155);
    e, x := Up2(n, e, x, 149292031826472855050542006018055740912529);
    e, x := Up1(n, e, x, 149468611161057865530218597464376459846478);
    e, x := Up3(n, e, x, 7331251961035710305025282502486515664774);
    e, x := Up3(n, e, x, 237941246288116580214546850094569522273448);
    e, x := Up2(n, e, x, 46020764696135488103929785029729203495722);
    e, x := Up2(n, e, x, 140575148997689222928575529700417903677066);
    e, x := Up2(n, e, x, 138598326955997689228203526517517235087110);
    e, x := Up1(n, e, x, 258265603259370148438207476860680049928282);
    e, x := Up2(n, e, x, 128600432662998803847903437116893626561412);
    e, x := Up3(n, e, x, 272823773989774864087860001728573645701742);
    e, x := Up2(n, e, x, 97773670139190902901898330855586316137914);
  }

  lemma Whole1384()
    ensures Reaches(276602624281642239937218680557139826668747, 2, 270119750275041249938690117731581861981,
                    113422257292425085084474080503835906177849)
  {
    hide Reaches;
    Whole1383();
    var n := 276602624281642239937218680557139826668747;
    var e, x := 62892155320160381947339074158, 97773670139190902901898330855586316137914;
    e, x := Up0(n, e, x, 207335271996450179596998205464506846827568);
    e, x := Up0(n, e, x, 51917688246056186138339340006614244686737);
    e, x := Up0(n, e, x, 11788757005839887734863395228031117396032);
    e, x := Up3(n, e, x, 10478776036212785150505051485705337001828);
    e, x := Up0(n, e, x, 33594551686312040116874895799782756752042);
    e, x := Up2(n, e, x, 183139025912900202994724530817866116283709);
    e, x := Up2(n, e, x, 208690569172743372983426134170549995406933);
    e, x := Up2(n, e, x, 34440364526853865582277195644726802837745);
    e, x := Up2(n, e, x, 60736295561698986065304732445552701020865);
    e, x := Up2(n, e, x, 81248670880993642536724262811021792531677);
    e, x := Up0(n, e, x, 97258459725170291265667087140645299918689);
    e, x := Up0(n, e, x, 148869847657225780635933793553387918615718);
    e, x := Up1(n, e, x, 46709770264656791214855775330652550125971);
    e, x := Up1(n, e, x, 246278152786163021896943022405382228161331);
    e, x := Up3(n, e, x, 182361332345463845975517911102232194183111);
    e, x := Up1(n, e, x, 113422257292425085084474080503835906177849);
  }

  lemma Whole138()
    ensures Reaches(276602624281642239937218680557139826668747, 2, 276602624281642239937218680557139826668746,
                    1)
  {
    hide Reaches;
    Whole1384();
    var n := 276602624281642239937218680557139826668747;
    var e, x := 270119750275041249938690117731581861981, 113422257292425085084474080503835906177849;
    e, x := Up0(n, e, x, 11471479317928590902269449841853406647790);
    e, x := Up3(n, e, x, 821121246262339589676506926402228017481);
    e, x := Up0(n, e, x, 574068407018257077722423225307506476559);
    e, x := Up2(n, e, x, 107201392961138624201561052344278940521085);
    e, x := Up2(n, e, x, 1);
  }

  lemma Part138()
    ensures Reaches(276602624281642239937218680557139826668747, 2, 14,
                    16384)
  {
    hide Reaches;
    var n := 276602624281642239937218680557139826668747;
    var e, x := Nothing(n, 2);
    e, x := Up3(n, e, x, 8);
    e, x := Up2(n, e, x, 16384);
  }

  lemma Prime138()
    ensures Prime(276602624281642239937218680557139826668747)
  {
    hide Prime, Reaches, DividesAll;
    Whole138();
    Prime134();
    Part138();
    Divides(276602624281642239937218680557139826668747, 2,
            19757330305831588566944191468367130476339,
            14,
            16384,
            94074944912245044309966580483695483989395);
    NoRoom(276602624281642239937218680557139826668747,
           19757330305831588566944191468367130476339);
  }

  lemma WholeL1()
    ensures Reaches(7237005577332262213973186563042994240857116359379907606001950938285454250989, 2, 1073741824,
                    5163316386418799127306362420515719783955892287169087990875515794646706657631)
  {
    hide Reaches;
    var n := 7237005577332262213973186563042994240857116359379907606001950938285454250989;
    var e, x := Nothing(n, 2);
    e, x := Up1(n, e, x, 2);
    e, x := Up0(n, e, x, 16);
    e, x := Up0(n, e, x, 65536);
    e, x := Up0(n, e, x, 18446744073709551616);
    e, x := Up0(n, e, x, 7237005577332262213973186563042994240413239274941949949428319933631315875101);
    e, x := Up0(n, e, x, 4460531758850015836181350679139994174100493552997170650645149546199170259469);
    e, x := Up0(n, e, x, 6835038230836649041129843311500620796431096176830742705941271920348483012040);
    e, x := Up0(n, e, x, 5645917675513515478896491896805673757446698105415329748759467109354945772118);
    e, x := Up0(n, e, x, 4784498346523861356500353588357029728336905222471856861391858715160818914763);
    e, x := Up0(n, e, x, 5090056102835009019844514877008137113277824563772687693310110189925913393981);
    e, x := Up0(n, e, x, 3311227481411755661686655794442654976534142452219419120844711389927761641038);
    e, x := Up0(n, e, x, 6784969975362325110915850597444091200171356168159339713179362017887564274936);
    e, x := Up0(n, e, x, 649396332513218500543574328056481486767705355943565670769658882545902208111);
    e, x := Up0(n, e, x, 6024473293013539979509879166593198570232139409848614682394132883951552378846);
    e, x := Up0(n, e, x, 5038801569111668581892234830961465457736391435301653445755125023933941548947);
    e, x := Up0(n, e, x, 5163316386418799127306362420515719783955892287169087990875515794646706657631);
  }

  lemma WholeL2()
    ensures Reaches(7237005577332262213973186563042994240857116359379907606001950938285454250989, 2,
            4611686018427387904,
                    4555094810867386227372892730917739278752024965334339174650034776270475566496)
  {
    hide Reaches;
    WholeL1();
    var n := 7237005577332262213973186563042994240857116359379907606001950938285454250989;
    var e, x := 1073741824, 5163316386418799127306362420515719783955892287169087990875515794646706657631;
    e, x := Up0(n, e, x, 2527106544734160346671529848292917923101391282423788522012798805426611027914);
    e, x := Up0(n, e, x, 2774991396082907723563304118367568615157822848201642816560447811813141770719);
    e, x := Up0(n, e, x, 1654392169876241757967827305791037195957733675253372880758909168327146354186);
    e, x := Up0(n, e, x, 5654093843388139231176296626096271764126730183104386283788212698080317447943);
    e, x := Up0(n, e, x, 1999258849202363690312241303707473942454030729292749507700673727029509203170);
    e, x := Up0(n, e, x, 3030796489495847121575099210710718566347085566654760562117928854061352917453);
    e, x := Up0(n, e, x, 136675057104026925736830340276351863128312430608104820284023016529906673482);
    e, x := Up0(n, e, x, 5013866656166822929625398177645817344577670663832670478585948588233815630313);
    e, x := Up0(n, e, x, 4561337922418587014220864864158082618484769863401585380438786083197804504863);
    e, x := Up0(n, e, x, 5738791276211700196695032930573463670498227861141831918925134062017199913566);
    e, x := Up0(n, e, x, 5763231549419467457229453942902837224864886132638133070154463182617758709112);
    e, x := Up0(n, e, x, 4664589445957162846185028758443339771802290308725284581397964559427647131323);
    e, x := Up0(n, e, x, 1349327741689056282167937949047857107732533036106013632860439865213997635616);
    e, x := Up0(n, e, x, 5878498742647980943044726250055191511888047617563341410405870531419344053703);
    e, x := Up0(n, e, x, 2699272742937149238076182943388817317777877650755075886176572849650313683225);
    e, x := Up0(n, e, x, 4555094810867386227372892730917739278752024965334339174650034776270475566496);
  }

  lemma WholeL3()
    ensures Reaches(7237005577332262213973186563042994240857116359379907606001950938285454250989, 2,
            19807040628566084398385987584,
                    1065494124639771462418168578394484582974212381611375329461155789634485600049)
  {
    hide Reaches;
    WholeL2();
    var n := 7237005577332262213973186563042994240857116359379907606001950938285454250989;
    var e, x := 4611686018427387904, 4555094810867386227372892730917739278752024965334339174650034776270475566496;
    e, x := Up0(n, e, x, 3112734776432989962555634119511870139882290373513408335273112745603847135968);
    e, x := Up0(n, e, x, 174964831033501327789167062032881038825479773330446602293992530788695770259);
    e, x := Up0(n, e, x, 1643171063341245148086671817357975575892142005642835547278557116497781419318);
    e, x := Up0(n, e, x, 3794355272946009140577876564632940104208542330028573759993495114503836932805);
    e, x := Up0(n, e, x, 5773628544683968332506775502429672672657470217399578138295340208012715890337);
    e, x := Up0(n, e, x, 5078301719985989153348867604287517029256809531274035743511183436291371737468);
    e, x := Up0(n, e, x, 1520303490747869935228237090254882500987851861146607852613280359092025669246);
    e, x := Up0(n, e, x, 6077890308093419811098488486305037695544342295022000547803283659655766781204);
    e, x := Up0(n, e, x, 6609368818009231778209319308495775710651113640858197906565696118354603430052);
    e, x := Up0(n, e, x, 2557487986015732046390795822129712787210558008608183750613881736037039168008);
    e, x := Up0(n, e, x, 7029377834924118161651725575212505184038502003004462006021199011689141556070);
    e, x := Up0(n, e, x, 5281529253197589591731240254948543950594945843533327500372380429025375707297);
    e, x := Up0(n, e, x, 3400263337827589751837938958039834490850334455779005350426853280479331434493);
    e, x := Up0(n, e, x, 6675158481851869024456830337590819033879935796853324859602138554898690071400);
    e, x := Up0(n, e, x, 2779519471025543971833181157400530365917218753226401085636021676386908272324);
    e, x := Up0(n, e, x, 1065494124639771462418168578394484582974212381611375329461155789634485600049);
  }

  lemma WholeL4()
    ensures Reaches(7237005577332262213973186563042994240857116359379907606001950938285454250989, 2,
            85070591730234615865843651857942052864,
                    4769198355059561213418962719079810354882345975046607184411986474280005326265)
  {
    hide Reaches;
    WholeL3();
    var n := 7237005577332262213973186563042994240857116359379907606001950938285454250989;
    var e, x := 19807040628566084398385987584,
        1065494124639771462418168578394484582974212381611375329461155789634485600049;
    e, x := Up0(n, e, x, 1006648077550984713180657050131269058832870355007884743443154882090922190976);
    e, x := Up0(n, e, x, 2794423109620188500490658504104520347136597326935637761516159911608436131467);
    e, x := Up0(n, e, x, 1931248268365753333736857532558533744453485878739627763729407197811129808376);
    e, x := Up0(n, e, x, 2460522624638185793747797906988269159548260376911710420286939523654222063768);
    e, x := Up0(n, e, x, 3610949101229093389825561072062767585287701888203791068833140377669749495195);
    e, x := Up0(n, e, x, 3252197776791476477041552551652628412029260573590170708725927466439738748466);
    e, x := Up0(n, e, x, 304752334069101649281068473201523012887809802065485162327596207758363928949);
    e, x := Up0(n, e, x, 2626085790022234232850138573813823528977362949772857647324855792363125036574);
    e, x := Up0(n, e, x, 5100257159183706229215089334335782924459993721664035483404757240320570395078);
    e, x := Up0(n, e, x, 5467726557670796714144020172396976471612284721592681975344572366945897366223);
    e, x := Up0(n, e, x, 2000089611710161015208022833114889299973315082077228907571799240144374836143);
    e, x := Up0(n, e, x, 284333590015813164928410001516181207391266916591960075635451505703611409833);
    e, x := Up0(n, e, x, 3841839563262087987611863382675405896108780372051087756073376032593139614531);
    e, x := Up0(n, e, x, 182267987389002183830776996679131846668529110766288759506011978739186483070);
    e, x := Up0(n, e, x, 7056929592589063046722350420976464130419380011782753640540668979178346765302);
    e, x := Up0(n, e, x, 4769198355059561213418962719079810354882345975046607184411986474280005326265);
  }

  lemma WholeL5()
    ensures Reaches(7237005577332262213973186563042994240857116359379907606001950938285454250989, 2,
            365375409332725729550921208179070754915383764858,
                    1376444714886662316086318566283234146483316640738968642445460363082294377393)
  {
    hide Reaches;
    WholeL4();
    var n := 7237005577332262213973186563042994240857116359379907606001950938285454250989;
    var e, x := 85070591730234615865843651857942052864,
        4769198355059561213418962719079810354882345975046607184411986474280005326265;
    e, x := Up1(n, e, x, 1580293041063162259917089660055755398309164336307740180055844211574068022473);
    e, x := Up1(n, e, x, 5207373647105742968634072601019226205590940191611515047285833091880298872129);
    e, x := Up0(n, e, x, 2733167024590211784586860171756170011652924141605559082778682538183628507716);
    e, x := Up3(n, e, x, 5501147924828808360343444428779922211177871481621975445093627557313512308802);
    e, x := Up1(n, e, x, 3947849666599548225238362908503983221486589655994982172180672754133595791356);
    e, x := Up3(n, e, x, 6230719236004948258442176781729522317850733017262634300725734419617873882294);
    e, x := Up2(n, e, x, 4972692615439147507191931893241139162486692534973765706941049262348265020420);
    e, x := Up3(n, e, x, 6759637357601126872025250910227011823830946991823493966996281204202486580662);
    e, x := Up3(n, e, x, 3134346622838530361916510633983509318423999486359528224541494536440434540292);
    e, x := Up2(n, e, x, 3157435952628978242768936864919611556608889953704388680708855108250023129214);
    e, x := Up1(n, e, x, 7082787551485719860928746024825626570827483468978847186476820330330034176001);
    e, x := Up3(n, e, x, 530392442541637691314172746489936689721990350535215334026198237134372525153);
    e, x := Up1(n, e, x, 1495727365775818826318631124057752504360525470261612403502873454118553210072);
    e, x := Up3(n, e, x, 4777432166513576597824888300636429019917335032690646012601383929206934760490);
    e, x := Up2(n, e, x, 2801638986382227672411203363433216729126127634558508231407069742493073670989);
    e, x := Up2(n, e, x, 1376444714886662316086318566283234146483316640738968642445460363082294377393);
  }

  lemma WholeL6()
    ensures Reaches(7237005577332262213973186563042994240857116359379907606001950938285454250989, 2,
            1569275433846670190958947355801916604031604517356810695513,
                    1376276257821079373714028352306889371607538092661293067200469899955193954347)
  {
    hide Reaches;
    WholeL5();
    var n := 7237005577332262213973186563042994240857116359379907606001950938285454250989;
    var e, x := 365375409332725729550921208179070754915383764858,
        1376444714886662316086318566283234146483316640738968642445460363082294377393;
    e, x := Up2(n, e, x, 1203829031149478169323776252730047583318520861189858187525154124047900492835);
    e, x := Up0(n, e, x, 5822411392818364804708567947331826824281379045444829492066529883317722098687);
    e, x := Up2(n, e, x, 1902926569113290775248452990794226125136355091339862986681257146092251506623);
    e, x := Up3(n, e, x, 6936071208341841115751944758628483004912155660659709488680088198469105832632);
    e, x := Up3(n, e, x, 4749496780322544218971053294691970522992977508420200631344326542488210972656);
    e, x := Up1(n, e, x, 1991287500317204557879764018426410253542930157208455547821455802518918499939);
    e, x := Up3(n, e, x, 1611442107616133305180505300630401103598676662604568106895943981125864783227);
    e, x := Up2(n, e, x, 510866476475516707188239027020197770660381280252133293772010755859809128909);
    e, x := Up1(n, e, x, 2434094561149620517540609908992374534068138298291108992122616820656369039746);
    e, x := Up3(n, e, x, 3830067683636686637844387461306177056227300506943154985970383402623283132830);
    e, x := Up0(n, e, x, 3085614266937730082158407960271907042531395538482476670904360329630729287424);
    e, x := Up3(n, e, x, 4346725512431521531271930773285725116455207100141124352624931830079376408949);
    e, x := Up1(n, e, x, 912017434422466102481566033342653570828423407776410796935134390958868103593);
    e, x := Up1(n, e, x, 5968345450979043450346967377363125181111334832185931820284043091238102177995);
    e, x := Up2(n, e, x, 3884139027733210185210308045201311325389199429412382272443617437707516686894);
    e, x := Up1(n, e, x, 1376276257821079373714028352306889371607538092661293067200469899955193954347);
  }

  lemma WholeL7()
    ensures Reaches(7237005577332262213973186563042994240857116359379907606001950938285454250989, 2,
            6739986666787659948666753771754907668435123152453366300092964375657,
                    942835553003919147822645441240493047791652572678472865776207132222147555172)
  {
    hide Reaches;
    WholeL6();
    var n := 7237005577332262213973186563042994240857116359379907606001950938285454250989;
    var e, x := 1569275433846670190958947355801916604031604517356810695513,
        1376276257821079373714028352306889371607538092661293067200469899955193954347;
    e, x := Up1(n, e, x, 6799786302629167091566677128555339797413336570672232510667046776204208188428);
    e, x := Up2(n, e, x, 123961067800272643033081254742015507512672682481138528077366598985774458314);
    e, x := Up0(n, e, x, 1924369375893898865565515805506061472914301791977163188659171656288213337210);
    e, x := Up0(n, e, x, 6089254402540305892640717039443072924358280949657688529946233443547968169179);
    e, x := Up1(n, e, x, 694689474370770106006920010219975779510636213006608280013215947176794140984);
    e, x := Up0(n, e, x, 6756767847804747046451866231415486318049515203022496036281260203053637178215);
    e, x := Up2(n, e, x, 2746226427639903965500726969148817445009574095009498767029794443779413137636);
    e, x := Up1(n, e, x, 4951432744198904398793865037131621515654467181607021513327243789114787849069);
    e, x := Up2(n, e, x, 1955077017484268559525339271864205087123717718258311959347790448368787390175);
    e, x := Up0(n, e, x, 1479537244890886228919412082582275867641550717039842674242308175072262443370);
    e, x := Up3(n, e, x, 2430109816955760634662631062975901630523196009493066908465181944160611786259);
    e, x := Up0(n, e, x, 6052514108774584372752491858618533392672298836043985993308048955658658633448);
    e, x := Up1(n, e, x, 4822391389150963490461978358768046037142085164738228645209907186357845156238);
    e, x := Up2(n, e, x, 6018559235875097359462957098336396748785666610128006780143002804273031436383);
    e, x := Up2(n, e, x, 3446542091621591397503457352259217819549523351667932555092549761779719301410);
    e, x := Up1(n, e, x, 942835553003919147822645441240493047791652572678472865776207132222147555172);
  }

  lemma WholeL()
    ensures Reaches(7237005577332262213973186563042994240857116359379907606001950938285454250989, 2,
            7237005577332262213973186563042994240857116359379907606001950938285454250988,
                    1)
  {
    hide Reaches;
    WholeL7();
    var n := 7237005577332262213973186563042994240857116359379907606001950938285454250989;
    var e, x := 6739986666787659948666753771754907668435123152453366300092964375657,
        942835553003919147822645441240493047791652572678472865776207132222147555172;
    e, x := Up1(n, e, x, 12778846517448583150798841628060426901408587698670099500202643613986378594);
    e, x := Up3(n, e, x, 6227029157829731089101063734157038736991636263006501338001536491907734602409);
    e, x := Up0(n, e, x, 2264059006443796989497270620939238819844812241744320404749109741695189402578);
    e, x := Up3(n, e, x, 3548361097479815105628895177721732008290263132790186227068113389866090035243);
    e, x := Up3(n, e, x, 6981817373162516824204766496431034999523637105917883583871403901389903377532);
    e, x := Up1(n, e, x, 529607876451237680556446252570451716875549584831812197718694388752115691121);
    e, x := Up1(n, e, x, 523764727436431042296757862198216038934087168592575414301592088466171172003);
    e, x := Up3(n, e, x, 6232630776600959428860010961175970328327513062226800230656314501217655009253);
    e, x := Up1(n, e, x, 648224240994021814394302594781123650450843440206774939027241062188327009535);
    e, x := Up0(n, e, x, 3873001265330890846632359068171634851271984639792962026539994157746535731865);
    e, x := Up3(n, e, x, 2043258341788969847463852649565706682156008251399586885604764703303542471495);
    e, x := Up3(n, e, x, 6058068606829362359372853385524432391365011749673199850920807311120489685485);
    e, x := Up2(n, e, x, 4175108886707338195638130053205679194111973649648163554496038292325879012558);
    e, x := Up3(n, e, x, 4202356475871964119699734399548423449193549369991576068503119564443318355924);
    e, x := Up0(n, e, x, 1);
  }

  lemma PartL1()
    ensures Reaches(7237005577332262213973186563042994240857116359379907606001950938285454250989, 2, 1352642333,
                    1139369185415425288430273286321748804376940360587482645792315684719108417668)
  {
    hide Reaches;
    var n := 7237005577332262213973186563042994240857116359379907606001950938285454250989;
    var e, x := Nothing(n, 2);
    e, x := Up1(n, e, x, 2);
    e, x := Up1(n, e, x, 32);
    e, x := Up0(n, e, x, 1048576);
    e, x := Up0(n, e, x, 1208925819614629174706176);
    e, x := Up2(n, e, x, 7237005577332262181220838655797515680085442238763285995306520868193670910957);
    e, x := Up1(n, e, x, 4017485412355440310094926674946908467883027725932059148200319967099897816930);
    e, x := Up3(n, e, x, 105557589556938751428501072189621482849841474754364338700376375882617352925);
    e, x := Up3(n, e, x, 3811983215330863293229707139288980898569062990183842372811515657258174835448);
    e, x := Up2(n, e, x, 1110076267799312249603094516958336734885867779746383368477762331179147383005);
    e, x := Up2(n, e, x, 7125774810740666022623121613736269223021558917840936527390279244486221007800);
    e, x := Up3(n, e, x, 4817605178043158475489090468488951008977997557101018685879807842325572257259);
    e, x := Up3(n, e, x, 5970438957854705944380525230652300172709531223543142182298385140107615971073);
    e, x := Up0(n, e, x, 3726150025039699938929026044735931681432159900307483822495469680013652136783);
    e, x := Up1(n, e, x, 5878319334376293248365392831773361611459433206296518087545571492531049691260);
    e, x := Up3(n, e, x, 2120568748155080600683797443334754342602943838034801786544658958258975621911);
    e, x := Up1(n, e, x, 1139369185415425288430273286321748804376940360587482645792315684719108417668);
  }

  lemma PartL2()
    ensures Reaches(7237005577332262213973186563042994240857116359379907606001950938285454250989, 2,
            5809554585508105335,
                    2783269685281434627935444849556554892494832325639038663211292882691244042516)
  {
    hide Reaches;
    PartL1();
    var n := 7237005577332262213973186563042994240857116359379907606001950938285454250989;
    var e, x := 1352642333, 1139369185415425288430273286321748804376940360587482645792315684719108417668;
    e, x := Up1(n, e, x, 6561688620917912004004213372806927110841566994450828736734825508058226692721);
    e, x := Up3(n, e, x, 1500444802511618633933524210771063245765362910351225142911069406962752087448);
    e, x := Up3(n, e, x, 4850344185767635225107706174644929111293116540133812628948506768267076750582);
    e, x := Up0(n, e, x, 3396120435908219389213880617461848588781281634402929565603447715239268088200);
    e, x := Up1(n, e, x, 5691392155944435834310625158151162189980992221094897088113506879165425651854);
    e, x := Up3(n, e, x, 3376028641225745103548801789062941928330568491187553995036581408704832790131);
    e, x := Up0(n, e, x, 1623984475907613967740195506245056013989799347608068708149069746581161819680);
    e, x := Up3(n, e, x, 6178583140845116446978992620247260732628621170336415772673227709850836767143);
    e, x := Up3(n, e, x, 2885453622033188444158597956786647803795336188906141635904697789513422366818);
    e, x := Up0(n, e, x, 4743142618867068972568744494122800357280383972099262530237870946310861670216);
    e, x := Up3(n, e, x, 5975209018297670150835835507217814336139647884744445701348654352110231987021);
    e, x := Up0(n, e, x, 1196503838460363647830489001845405599061731334861857675097421552679765052038);
    e, x := Up1(n, e, x, 3675016020712552690134451074537405002577983476101811972594219691553947020182);
    e, x := Up3(n, e, x, 5655530478811257262365822935562061499230730542274391948860453187281369923043);
    e, x := Up1(n, e, x, 1845361661838516135180268783192527985744959146440731445237671749858046871041);
    e, x := Up3(n, e, x, 2783269685281434627935444849556554892494832325639038663211292882691244042516);
  }

  lemma PartL3()
    ensures Reaches(7237005577332262213973186563042994240857116359379907606001950938285454250989, 2,
            24951846949084147958495290184,
                    2856007608584746157073667060264289817653332707176298642580825093446621298454)
  {
    hide Reaches;
    PartL2();
    var n := 7237005577332262213973186563042994240857116359379907606001950938285454250989;
    var e, x := 5809554585508105335, 2783269685281434627935444849556554892494832325639038663211292882691244042516;
    e, x := Up1(n, e, x, 4704802044303763536159546903309631354190630547693465205991772027952285981855);
    e, x := Up2(n, e, x, 5738153914782625623838146529072198090198883432736635298604143775252216289599);
    e, x := Up2(n, e, x, 3264312685169514244821452160846305435510914073744642814471393207190551427424);
    e, x := Up0(n, e, x, 743511002384845381334909495207431841448404784873648202372095295101599616359);
    e, x := Up0(n, e, x, 2909471083522110165711060240657929524451861520969684902813887100622618826972);
    e, x := Up2(n, e, x, 1731694890804388718101801884318231082875256957448040938735802585543174353773);
    e, x := Up0(n, e, x, 7025378486590662371498458191466820183502228385479041901486335420701066215995);
    e, x := Up3(n, e, x, 3042255317122063440595711132825626834027267886944608041706199439570743809270);
    e, x := Up2(n, e, x, 6453769709553246824009667300669756849432575763343591304051511793955126979649);
    e, x := Up2(n, e, x, 796341523453050335404220276658866817922914186199357311139774486690005598681);
    e, x := Up0(n, e, x, 1958832464138357784733598358479952567123214779175085325295519136846109194283);
    e, x := Up3(n, e, x, 6532189792343843294611617672391353646514095233007271760914677058326234282893);
    e, x := Up1(n, e, x, 3691870950161008658652252554906113387575407324212104503671413285072087556241);
    e, x := Up0(n, e, x, 3842146550872381237203513431230549047196706059773248818115231798531491921839);
    e, x := Up2(n, e, x, 1332918924517356882699493142856174374310993703967087778967135001901345012682);
    e, x := Up0(n, e, x, 2856007608584746157073667060264289817653332707176298642580825093446621298454);
  }

  lemma PartL()
    ensures Reaches(7237005577332262213973186563042994240857116359379907606001950938285454250989, 2,
            26163907866482859529727157400808004,
                    2975531125133123119648879457563281269120703404158613135195788908093573672641)
  {
    hide Reaches;
    PartL3();
    var n := 7237005577332262213973186563042994240857116359379907606001950938285454250989;
    var e, x := 24951846949084147958495290184,
        2856007608584746157073667060264289817653332707176298642580825093446621298454;
    e, x := Up3(n, e, x, 2768625750172722694288732356310649089557468140019638981849507970597871093516);
    e, x := Up0(n, e, x, 43340748415225003893213662881322179775429115183868834776408243912129465316);
    e, x := Up2(n, e, x, 69124628901190054606737025558685767785245782699553476921542446429320260707);
    e, x := Up2(n, e, x, 3099254869956675443167523301600884608033458798877158734277036696017283045037);
    e, x := Up2(n, e, x, 132519813397325631271586313887749444914019736835409931230203406200676637914);
    e, x := Up2(n, e, x, 5129451927560834399831211981051166362445360162975388049316268502513801564758);
    e, x := Up1(n, e, x, 4237384754090503099216940166079123036783892202138438950425714342294947304226);
    e, x := Up0(n, e, x, 3563261994466887876552575845726691709939174004975931541978581777795212096547);
    e, x := Up1(n, e, x, 365979940237149356608087986514861648705115591459065704776577207044542435270);
    e, x := Up0(n, e, x, 2975531125133123119648879457563281269120703404158613135195788908093573672641);
  }

  lemma PrimeL()
    ensures Prime(7237005577332262213973186563042994240857116359379907606001950938285454250989)
  {
    hide Prime, Reaches, DividesAll;
    WholeL();
    Prime138();
    PartL();
    Divides(7237005577332262213973186563042994240857116359379907606001950938285454250989, 2,
            276602624281642239937218680557139826668747,
            26163907866482859529727157400808004,
            2975531125133123119648879457563281269120703404158613135195788908093573672641,
            2233364593245673852815932892735013076939656528578070433728021143254617821614);
    NoRoom(7237005577332262213973186563042994240857116359379907606001950938285454250989,
           276602624281642239937218680557139826668747);
  }
}
